/** Optional values, as the source's nil pointers and "has" flags. */
module Options {
  datatype Option<+T> = None | Some(value: T)
}

/** The string operations of the source, over ASCII letters for anything that folds case. */
module Text {

  /** unicode.IsSpace. */
  predicate IsSpace(c: char) {
    || '\t' <= c <= '\r' || c == ' ' || c == '\U{0085}' || c == '\U{00A0}' || c == '\U{1680}'
    || '\U{2000}' <= c <= '\U{200A}' || c == '\U{2028}' || c == '\U{2029}' || c == '\U{202F}'
    || c == '\U{205F}' || c == '\U{3000}'
  }

  predicate All(s: string, p: char -> bool) {
    forall i :: 0 <= i < |s| ==> p(s[i])
  }

  function TrimLeft(s: string, cut: char -> bool): string {
    if s != "" && cut(s[0]) then TrimLeft(s[1..], cut) else s
  }

  function TrimRight(s: string, cut: char -> bool): string {
    if s != "" && cut(s[|s| - 1]) then TrimRight(s[..|s| - 1], cut) else s
  }

  /** strings.Trim with the cut set given as a predicate. */
  function Trim(s: string, cut: char -> bool): string {
    TrimRight(TrimLeft(s, cut), cut)
  }

  function TrimSpace(s: string): string {
    Trim(s, IsSpace)
  }

  lemma {:induction false} TrimLeftDrops(pad: string, s: string, cut: char -> bool)
    requires All(pad, cut)
    requires s == "" || !cut(s[0])
    ensures TrimLeft(pad + s, cut) == s
  {
    if pad == "" {
      assert pad + s == s;
    } else {
      assert cut((pad + s)[0]) by { assert cut(pad[0]); }
      assert (pad + s)[1..] == pad[1..] + s;
      TrimLeftDrops(pad[1..], s, cut);
    }
  }

  lemma {:induction false} TrimRightDrops(s: string, pad: string, cut: char -> bool)
    requires All(pad, cut)
    requires s == "" || !cut(s[|s| - 1])
    ensures TrimRight(s + pad, cut) == s
  {
    if pad == "" {
      assert s + pad == s;
    } else {
      assert cut((s + pad)[|s + pad| - 1]) by { assert cut(pad[|pad| - 1]); }
      assert (s + pad)[..|s + pad| - 1] == s + pad[..|pad| - 1];
      TrimRightDrops(s, pad[..|pad| - 1], cut);
    }
  }

  /** Padding made of cut characters on both sides of a core that starts and ends with kept ones is removed exactly. */
  lemma TrimDrops(left: string, core: string, right: string, cut: char -> bool)
    requires All(left, cut) && All(right, cut)
    requires core != "" && !cut(core[0]) && !cut(core[|core| - 1])
    ensures Trim(left + core + right, cut) == core
  {
    assert left + core + right == left + (core + right);
    TrimLeftDrops(left, core + right, cut);
    TrimRightDrops(core, right, cut);
  }

  lemma TrimKeeps(s: string, cut: char -> bool)
    requires s == "" || (!cut(s[0]) && !cut(s[|s| - 1]))
    ensures Trim(s, cut) == s
  {
  }

  lemma {:induction false} TrimLeftIs(s: string, cut: char -> bool) returns (pad: string)
    ensures s == pad + TrimLeft(s, cut) && All(pad, cut)
    ensures TrimLeft(s, cut) == "" || !cut(TrimLeft(s, cut)[0])
  {
    pad := "";
    if s != "" && cut(s[0]) {
      var rest := TrimLeftIs(s[1..], cut);
      pad := [s[0]] + rest;
    }
  }

  lemma {:induction false} TrimRightIs(s: string, cut: char -> bool) returns (pad: string)
    ensures s == TrimRight(s, cut) + pad && All(pad, cut)
    ensures TrimRight(s, cut) == "" || !cut(TrimRight(s, cut)[|TrimRight(s, cut)| - 1])
  {
    pad := "";
    if s != "" && cut(s[|s| - 1]) {
      var rest := TrimRightIs(s[..|s| - 1], cut);
      pad := rest + [s[|s| - 1]];
    }
  }

  /** Trimming takes nothing off the ends but cut characters, and leaves none there. */
  lemma TrimIs(s: string, cut: char -> bool) returns (left: string, right: string)
    ensures s == left + Trim(s, cut) + right && All(left, cut) && All(right, cut)
    ensures var t := Trim(s, cut); t == "" || (!cut(t[0]) && !cut(t[|t| - 1]))
  {
    left := TrimLeftIs(s, cut);
    right := TrimRightIs(TrimLeft(s, cut), cut);
    assert TrimLeft(s, cut) == Trim(s, cut) + right;
  }

  function UpperChar(c: char): char {
    if 'a' <= c <= 'z' then (c as int - 'a' as int + 'A' as int) as char else c
  }

  /** strings.ToUpper. */
  function Upper(s: string): (u: string)
    ensures |u| == |s|
    ensures forall i :: 0 <= i < |s| ==> u[i] == UpperChar(s[i])
  {
    seq(|s|, i requires 0 <= i < |s| => UpperChar(s[i]))
  }

  /** strings.EqualFold. */
  predicate EqualFold(a: string, b: string) {
    Upper(a) == Upper(b)
  }

  /** The same character, or the two cases of one ASCII letter. */
  predicate SameLetter(a: char, b: char) {
    || a == b
    || ('a' <= a <= 'z' && 'A' <= b <= 'Z' && a as int - 'a' as int == b as int - 'A' as int)
    || ('A' <= a <= 'Z' && 'a' <= b <= 'z' && a as int - 'A' as int == b as int - 'a' as int)
  }

  /** Equal character by character, up to letter case. */
  predicate SameLetters(a: string, b: string) {
    |a| == |b| && forall i :: 0 <= i < |a| ==> SameLetter(a[i], b[i])
  }

  lemma SameLetterIff(a: char, b: char)
    ensures UpperChar(a) == UpperChar(b) <==> SameLetter(a, b)
  {
  }

  /** Folding case identifies exactly the strings that agree letter by letter. */
  lemma EqualFoldIff(a: string, b: string)
    ensures EqualFold(a, b) <==> SameLetters(a, b)
  {
    assert |Upper(a)| == |a| && |Upper(b)| == |b|;
    forall i | 0 <= i < |a| && |a| == |b|
      ensures Upper(a)[i] == Upper(b)[i] <==> SameLetter(a[i], b[i])
    {
      SameLetterIff(a[i], b[i]);
    }
  }
}

/** config.Desk, ble.DiscoveredPeripheral and the rule that pairs them. */
module Matching {
  import opened Options
  import opened Text

  datatype DeskConfig = DeskConfig(id: string, name: string, namePrefix: string, peripheralID: string)

  /** A CoreBluetooth identifier: never empty. */
  type Pid = s: string | s != "" witness "P"

  datatype Advert = Advert(pid: Pid, name: Option<string>, localName: Option<string>)

  function TrimmedName(n: Option<string>): (t: string) {
    if n.Some? then TrimSpace(n.value) else ""
  }

  /** The non-empty ones of the two names, the second only if it says something new. */
  function DistinctNames(name: string, local: string): seq<string> {
    var names := if name != "" then [name] else [];
    if local != "" && (names == [] || !EqualFold(names[0], local)) then names + [local] else names
  }

  function AdvertisedNames(p: Advert): seq<string> {
    DistinctNames(TrimmedName(p.name), TrimmedName(p.localName))
  }

  predicate NameFits(d: DeskConfig, got: string) {
    var name, prefix := TrimSpace(d.name), TrimSpace(d.namePrefix);
    || (name != "" && EqualFold(got, name))
    || (prefix != "" && |prefix| <= |got| && EqualFold(got[..|prefix|], prefix))
  }

  predicate MatchesDesk(d: DeskConfig, p: Advert) {
    var id := TrimSpace(d.peripheralID);
    if id != "" then EqualFold(id, p.pid) else exists got <- AdvertisedNames(p) :: NameFits(d, got)
  }

  /** Dropping an advertised local name that only repeats the peripheral name never changes a match. */
  lemma DuplicateNamesDoNotMatter(d: DeskConfig, name: string, local: string)
    ensures (exists got <- DistinctNames(name, local) :: NameFits(d, got)) <==>
            (name != "" && NameFits(d, name)) || (local != "" && NameFits(d, local))
  {
    if name == "" {
      assert DistinctNames(name, local) == if local == "" then [] else [local];
    } else if local == "" {
      assert DistinctNames(name, local) == [name];
    } else if EqualFold(name, local) {
      FoldedNamesFitAlike(d, name, local);
      assert DistinctNames(name, local) == [name];
    } else {
      assert DistinctNames(name, local) == [name, local];
    }
  }

  lemma FoldedNamesFitAlike(d: DeskConfig, a: string, b: string)
    requires EqualFold(a, b)
    ensures NameFits(d, a) <==> NameFits(d, b)
  {
    var prefix := TrimSpace(d.namePrefix);
    assert |a| == |Upper(a)| == |b|;
    if |prefix| <= |a| {
      assert Upper(a[..|prefix|]) == Upper(a)[..|prefix|] == Upper(b)[..|prefix|] == Upper(b[..|prefix|]);
    }
  }

  // Which adverts match, character by character

  /** got is one of the names p is advertised under, trimmed, and not empty. */
  predicate Carries(p: Advert, got: string) {
    && got != ""
    && (|| (p.name.Some? && got == TrimSpace(p.name.value))
        || (p.localName.Some? && got == TrimSpace(p.localName.value)))
  }

  lemma MatchesByNamesIff(d: DeskConfig, p: Advert)
    requires TrimSpace(d.peripheralID) == ""
    ensures MatchesDesk(d, p) <==> exists got :: Carries(p, got) && NameFits(d, got)
  {
    var name, local := TrimmedName(p.name), TrimmedName(p.localName);
    DuplicateNamesDoNotMatter(d, name, local);
    if name != "" { assert Carries(p, name); }
    if local != "" { assert Carries(p, local); }
  }

  /** A desk pinned to an identifier matches exactly that one, up to letter case, under whatever name. */
  lemma MatchesByIdentifierIff(d: DeskConfig, p: Advert)
    requires TrimSpace(d.peripheralID) != ""
    ensures MatchesDesk(d, p) <==> SameLetters(TrimSpace(d.peripheralID), p.pid)
  {
    EqualFoldIff(TrimSpace(d.peripheralID), p.pid);
  }

  /** A desk set by name matches exactly the adverts one of whose names is that whole name, up to letter case. */
  lemma MatchesByNameIff(d: DeskConfig, p: Advert)
    requires TrimSpace(d.peripheralID) == "" && TrimSpace(d.namePrefix) == "" && TrimSpace(d.name) != ""
    ensures MatchesDesk(d, p) <==> exists got :: Carries(p, got) && SameLetters(got, TrimSpace(d.name))
  {
    MatchesByNamesIff(d, p);
    forall got
      ensures NameFits(d, got) <==> SameLetters(got, TrimSpace(d.name))
    {
      EqualFoldIff(got, TrimSpace(d.name));
    }
  }

  /**
   A desk set by prefix matches exactly the adverts one of whose names is long enough and starts
   with it, up to letter case.
   */
  lemma MatchesByPrefixIff(d: DeskConfig, p: Advert)
    requires TrimSpace(d.peripheralID) == "" && TrimSpace(d.name) == "" && TrimSpace(d.namePrefix) != ""
    ensures var prefix := TrimSpace(d.namePrefix);
            MatchesDesk(d, p) <==>
              exists got :: Carries(p, got) && |prefix| <= |got| && SameLetters(got[..|prefix|], prefix)
  {
    var prefix := TrimSpace(d.namePrefix);
    MatchesByNamesIff(d, p);
    forall got
      ensures NameFits(d, got) <==> |prefix| <= |got| && SameLetters(got[..|prefix|], prefix)
    {
      if |prefix| <= |got| { EqualFoldIff(got[..|prefix|], prefix); }
    }
  }
}
