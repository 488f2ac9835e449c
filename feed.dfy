/** The feed's sections: the transaction list cut into runs of consecutive
    transactions that share a day. */
module Feed {
  import opened Transactions

  /** `TransactionSection`, identified by its date. */
  datatype TransactionSection = TransactionSection(date: string, transactions: seq<Transaction>)

  /** The sections of `ts` built one transaction at a time: a transaction of the same
      day as the last section joins it, any other opens a new section. */
  function Sections(ts: seq<Transaction>): (r: seq<TransactionSection>)
    ensures ts == [] <==> r == []
  {
    if ts == [] then []
    else
      var g := Sections(ts[..|ts| - 1]);
      var t := ts[|ts| - 1];
      if g != [] && g[|g| - 1].date == t.fullDate then
        g[..|g| - 1] + [TransactionSection(t.fullDate, g[|g| - 1].transactions + [t])]
      else
        g + [TransactionSection(t.fullDate, [t])]
  }

  /** The transactions of the sections, in order. */
  function Flatten(sections: seq<TransactionSection>): (r: seq<Transaction>)
    ensures sections == [] ==> r == []
  {
    if sections == [] then [] else Flatten(sections[..|sections| - 1]) + sections[|sections| - 1].transactions
  }

  /** A section is a non-empty run of transactions of its own date. */
  predicate WellFormed(s: TransactionSection)
  {
    s.transactions != [] && forall t :: t in s.transactions ==> t.fullDate == s.date
  }

  /** `groupedTransactions`. */
  method GroupedTransactions(transactions: seq<Transaction>) returns (sections: seq<TransactionSection>)
    ensures sections == Sections(transactions)
  {
    sections := [];
    var currentDate := "";
    var currentTransactions: seq<Transaction> := [];
    for i := 0 to |transactions|
      invariant i == 0 ==> sections == [] && currentTransactions == [] && currentDate == ""
      invariant i > 0 ==>
        && currentTransactions != []
        && Sections(transactions[..i]) == sections + [TransactionSection(currentDate, currentTransactions)]
    {
      var transaction := transactions[i];
      assert transactions[..i + 1] == transactions[..i] + [transaction];
      if i > 0 {
        SectionsExtend(transactions[..i], sections, currentDate, currentTransactions, transaction);
      } else {
        assert transactions[..i + 1] == [transaction];
      }
      if transaction.fullDate != currentDate {
        if currentTransactions != [] {
          sections := sections + [TransactionSection(currentDate, currentTransactions)];
        }
        currentDate := transaction.fullDate;
        currentTransactions := [transaction];
      } else {
        currentTransactions := currentTransactions + [transaction];
      }
    }
    if currentTransactions != [] {
      sections := sections + [TransactionSection(currentDate, currentTransactions)];
    }
    assert transactions[..|transactions|] == transactions;
  }

  /** One more transaction joins the last section when it is of the same day and
      opens a new one otherwise. */
  lemma SectionsExtend(ts: seq<Transaction>, sections: seq<TransactionSection>, date: string,
                       current: seq<Transaction>, t: Transaction)
    requires Sections(ts) == sections + [TransactionSection(date, current)]
    ensures t.fullDate == date ==> Sections(ts + [t]) == sections + [TransactionSection(date, current + [t])]
    ensures t.fullDate != date ==>
      Sections(ts + [t]) == sections + [TransactionSection(date, current), TransactionSection(t.fullDate, [t])]
  {
    var g := Sections(ts);
    assert (ts + [t])[..|ts|] == ts;
    assert g[..|g| - 1] == sections;
  }

  /** Adding a section adds its transactions at the end. */
  lemma FlattenSnoc(g: seq<TransactionSection>, s: TransactionSection)
    ensures Flatten(g + [s]) == Flatten(g) + s.transactions
  {
    assert (g + [s])[..|g|] == g;
  }

  /** The sections hold every transaction once, in the original order. */
  lemma {:induction false} SectionsPartition(ts: seq<Transaction>)
    ensures Flatten(Sections(ts)) == ts
  {
    if ts != [] {
      var init := ts[..|ts| - 1];
      var t := ts[|ts| - 1];
      assert init + [t] == ts;
      SectionsPartition(init);
      if init == [] {
        assert Sections(ts) == [TransactionSection(t.fullDate, [t])];
        FlattenSnoc([], TransactionSection(t.fullDate, [t]));
      } else {
        var g := Sections(init);
        var last := g[|g| - 1];
        var front := g[..|g| - 1];
        assert front + [last] == g;
        SectionsExtend(init, front, last.date, last.transactions, t);
        if t.fullDate == last.date {
          FlattenJoin(front, last, t);
        } else {
          var s := TransactionSection(t.fullDate, [t]);
          assert front + [last, s] == g + [s];
          FlattenSnoc(g, s);
        }
      }
    }
  }

  /** A transaction added to the last section comes last in the flattening. */
  lemma FlattenJoin(init: seq<TransactionSection>, last: TransactionSection, t: Transaction)
    ensures Flatten(init + [TransactionSection(last.date, last.transactions + [t])]) == Flatten(init + [last]) + [t]
  {
    FlattenSnoc(init, last);
    FlattenSnoc(init, TransactionSection(last.date, last.transactions + [t]));
    assert Flatten(init) + (last.transactions + [t]) == (Flatten(init) + last.transactions) + [t];
  }

  /** Every section is a non-empty run of its own date, and two neighbouring sections
      have different dates. */
  lemma {:induction false} SectionsWellFormed(ts: seq<Transaction>)
    ensures forall i :: 0 <= i < |Sections(ts)| ==> WellFormed(Sections(ts)[i])
    ensures forall i :: 0 < i < |Sections(ts)| ==> Sections(ts)[i - 1].date != Sections(ts)[i].date
  {
    if ts != [] {
      var init := ts[..|ts| - 1];
      SectionsWellFormed(init);
      var g := Sections(init);
      var t := ts[|ts| - 1];
      if g != [] && g[|g| - 1].date == t.fullDate {
        var last := g[|g| - 1];
        assert WellFormed(last);
        assert WellFormed(TransactionSection(t.fullDate, last.transactions + [t]));
      }
    }
  }

  /** A new section opens exactly where the date changes: a list has one section more
      than it has neighbours of different dates. */
  lemma {:induction false} SectionCount(ts: seq<Transaction>)
    ensures ts != [] ==> |Sections(ts)| == 1 + DateChanges(ts)
  {
    if |ts| > 1 {
      var init := ts[..|ts| - 1];
      SectionCount(init);
      SectionsLastDate(init);
      assert init[..|init| - 1] == ts[..|ts| - 2];
    }
  }

  /** The number of neighbours in `ts` whose dates differ. */
  function DateChanges(ts: seq<Transaction>): nat
  {
    if |ts| < 2 then 0
    else DateChanges(ts[..|ts| - 1]) + (if ts[|ts| - 2].fullDate != ts[|ts| - 1].fullDate then 1 else 0)
  }

  /** The last section carries the date of the last transaction. */
  lemma SectionsLastDate(ts: seq<Transaction>)
    requires ts != []
    ensures Sections(ts)[|Sections(ts)| - 1].date == ts[|ts| - 1].fullDate
  {
  }
}
