/** Personal API keys and the masked form in which their identifiers are shown. */
module ApiKeys {
  import opened Wrappers
  import opened Clock
  import opened Text

  /** The character that hides a character of the identifier. */
  const Bullet: char := '•'

  datatype ApiKey = ApiKey(id: string, name: string, active: bool, createdAt: Date, createdAtTimestamp: Option<int>)
  {
    /** `isActive`. */
    predicate IsActive()
    {
      active
    }

    /** `maskedId`: an identifier of at most eight characters is all bullets; a longer
        one shows its first and last four characters around four bullets. */
    function MaskedId(): (r: string)
      ensures |id| <= 8 ==> |r| == |id| && forall i :: 0 <= i < |r| ==> r[i] == Bullet
      ensures |id| > 8 ==> |r| == 12 && r[..4] == id[..4] && r[8..] == id[|id| - 4..]
      ensures |id| > 8 ==> forall i :: 4 <= i < 8 ==> r[i] == Bullet
    {
      if |id| <= 8 then Repeat(Bullet, |id|)
      else id[..4] + Repeat(Bullet, 4) + id[|id| - 4..]
    }
  }

  /** What the mask gives away: of a short identifier only its length, of a long one
      only its first and last four characters, not its length. Keys that agree on that
      are masked the same. */
  lemma MaskedIdDependsOnlyOnEnds(k: ApiKey, l: ApiKey)
    requires |k.id| <= 8 || |l.id| <= 8 ==> |k.id| == |l.id|
    requires |k.id| > 8 && |l.id| > 8 ==> k.id[..4] == l.id[..4] && k.id[|k.id| - 4..] == l.id[|l.id| - 4..]
    ensures k.MaskedId() == l.MaskedId()
  {
  }

  /** The converse of `MaskedIdDependsOnlyOnEnds`: the mask does give those facts away.
      Keys masked the same are both short with one length, or both long with the same
      first and last four characters. */
  lemma MaskedIdRevealsEnds(k: ApiKey, l: ApiKey)
    requires k.MaskedId() == l.MaskedId()
    ensures |k.id| <= 8 <==> |l.id| <= 8
    ensures |k.id| <= 8 ==> |k.id| == |l.id|
    ensures |k.id| > 8 ==> k.id[..4] == l.id[..4] && k.id[|k.id| - 4..] == l.id[|l.id| - 4..]
  {
    var m := k.MaskedId();
    if |k.id| > 8 && |l.id| > 8 {
      assert k.id[..4] == m[..4] == l.id[..4];
      assert k.id[|k.id| - 4..] == m[8..] == l.id[|l.id| - 4..];
    }
  }

  /** `makeApiKey`, the preview factory; the identifier and the creation time are
      parameters. */
  function MakeApiKey(id: string, now: Date, name: string := "My API Key", active: bool := true): (k: ApiKey)
    ensures k.id == id && k.name == name && (k.IsActive() <==> active)
  {
    ApiKey(id, name, active, now, None)
  }
}
