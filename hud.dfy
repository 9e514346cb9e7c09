/**
 * The ammo read-out: `updateHUD` writes "Ammo: <ammo> / <reserve>" into the
 * page. `ParseHud` reads such a text back; the round trip shows that the
 * read-out always shows both counts unambiguously.
 */
module Hud {
  import opened Wrappers
  import opened Decimal

  const Prefix: string := "Ammo: "
  const Separator: string := " / "

  function HudText(ammo: int, reserve: int): string {
    Prefix + IntText(ammo) + Separator + IntText(reserve)
  }

  /** The first position of `c` in `s`, or `|s|` when there is none. */
  function IndexOf(s: string, c: char): (i: nat)
    ensures i <= |s|
    ensures i < |s| ==> s[i] == c
    ensures forall k :: 0 <= k < i ==> s[k] != c
  {
    if s == [] then 0
    else if s[0] == c then 0
    else 1 + IndexOf(s[1..], c)
  }

  /** Splits a read-out back into the two counts it shows. */
  function ParseHud(t: string): Option<(int, int)> {
    if |t| < |Prefix| || t[..|Prefix|] != Prefix then None
    else
      var body := t[|Prefix|..];
      var i := IndexOf(body, ' ');
      if i + |Separator| > |body| || body[i..i + |Separator|] != Separator then None
      else
        match (ParseInt(body[..i]), ParseInt(body[i + |Separator|..]))
        case (Some(a), Some(r)) => Some((a, r))
        case _ => None
  }

  /** The read-out of any pair of counts parses back to that pair. */
  lemma ParseHudText(ammo: int, reserve: int)
    ensures ParseHud(HudText(ammo, reserve)) == Some((ammo, reserve))
  {
    var a, r := IntText(ammo), IntText(reserve);
    var t := HudText(ammo, reserve);
    assert t == Prefix + (a + Separator + r);
    var body := t[|Prefix|..];
    assert t[..|Prefix|] == Prefix;
    assert body == a + Separator + r;
    assert forall k :: 0 <= k < |a| ==> a[k] != ' ';
    assert body[|a|] == ' ';
    var i := IndexOf(body, ' ');
    assert i == |a|;
    assert body[..i] == a;
    assert body[i..i + |Separator|] == Separator;
    assert body[i + |Separator|..] == r;
    ParseIntText(ammo);
    ParseIntText(reserve);
  }

  /** Two read-outs are equal exactly when they show the same counts. */
  lemma HudTextInjective(a1: int, r1: int, a2: int, r2: int)
    ensures HudText(a1, r1) == HudText(a2, r2) <==> a1 == a2 && r1 == r2
  {
    ParseHudText(a1, r1);
    ParseHudText(a2, r2);
  }
}
