/** `safeZipPath` of `src/lib/zip.ts`. Names are UTF-8 bytes; the separators and dots it looks for are single ASCII
    bytes, which occur in no longer UTF-8 sequence. */
module ZipPaths {
  import opened Crc32
  import opened Text

  type Bytes = seq<Byte>

  const SLASH: Byte := 47
  const BACKSLASH: Byte := 92
  const DOT: Byte := 46
  /** "file" */
  const FALLBACK: Bytes := [102, 105, 108, 101]

  function Slashed(name: Bytes): Bytes {
    if name == [] then [] else [if name[0] == BACKSLASH then SLASH else name[0]] + Slashed(name[1..])
  }

  predicate Usable(part: Bytes) {
    part != [] && part != [DOT] && part != [DOT, DOT]
  }

  function UsableParts(parts: seq<Bytes>): seq<Bytes> {
    if parts == [] then [] else (if Usable(parts[0]) then [parts[0]] else []) + UsableParts(parts[1..])
  }

  /** `safeZipPath`. */
  function SafeZipPath(name: Bytes): Bytes {
    var joined := Join(UsableParts(Split(Slashed(name), SLASH)), [SLASH]);
    if joined == [] then FALLBACK else joined
  }

  /** A relative path without empty, "." or ".." parts and without backslashes. */
  predicate IsSafePath(path: Bytes) {
    BACKSLASH !in path && forall i :: 0 <= i < |Split(path, SLASH)| ==> Usable(Split(path, SLASH)[i])
  }

  predicate GoodParts(parts: seq<Bytes>) {
    forall i :: 0 <= i < |parts| ==> Usable(parts[i]) && SLASH !in parts[i] && BACKSLASH !in parts[i]
  }

  lemma {:induction false} SlashedHasNoBackslash(name: Bytes)
    ensures BACKSLASH !in Slashed(name) && (BACKSLASH !in name ==> Slashed(name) == name)
  {
    if name != [] {
      SlashedHasNoBackslash(name[1..]);
      assert name == [name[0]] + name[1..];
    }
  }

  lemma {:induction false} UsablePartsAreGood(parts: seq<Bytes>)
    requires forall i :: 0 <= i < |parts| ==> SLASH !in parts[i] && BACKSLASH !in parts[i]
    ensures GoodParts(UsableParts(parts))
    ensures (forall i :: 0 <= i < |parts| ==> Usable(parts[i])) ==> UsableParts(parts) == parts
  {
    if parts != [] { UsablePartsAreGood(parts[1..]); }
  }

  lemma FallbackIsSafe()
    ensures IsSafePath(FALLBACK)
  {
    SplitAfter(FALLBACK, SLASH, []);
  }

  lemma SafeResult(name: Bytes)
    ensures IsSafePath(SafeZipPath(name))
  {
    var slashed := Slashed(name);
    SlashedHasNoBackslash(name);
    SplitParts(slashed, SLASH);
    var parts := UsableParts(Split(slashed, SLASH));
    forall i | 0 <= i < |Split(slashed, SLASH)| ensures BACKSLASH !in Split(slashed, SLASH)[i] {}
    UsablePartsAreGood(Split(slashed, SLASH));
    FallbackIsSafe();
    hide Split, UsableParts, Slashed, Join, Usable;
    if parts != [] {
      SplitOfJoin(parts, SLASH);
      JoinHas(parts, [SLASH], BACKSLASH);
    }
  }

  lemma SafeIsFixed(path: Bytes)
    requires IsSafePath(path)
    ensures SafeZipPath(path) == path
  {
    SlashedHasNoBackslash(path);
    SplitParts(path, SLASH);
    UsablePartsAreGood(Split(path, SLASH));
    JoinOfSplit(path, SLASH);
    assert Usable(Split(path, SLASH)[0]);
  }

  predicate HasUsablePart(name: Bytes) {
    UsableParts(Split(Slashed(name), SLASH)) != []
  }

  lemma {:induction false} SlashedTogether(a: Bytes, b: Bytes)
    ensures Slashed(a + b) == Slashed(a) + Slashed(b)
  {
    if a == [] {
      assert a + b == b;
    } else {
      SlashedTogether(a[1..], b);
      assert (a + b)[1..] == a[1..] + b;
    }
  }

  lemma SplitSlashed(part: Bytes, slash: Byte, rest: Bytes)
    requires SLASH !in part && BACKSLASH !in part && slash in {SLASH, BACKSLASH}
    ensures Split(Slashed(part + [slash] + rest), SLASH) == [part] + Split(Slashed(rest), SLASH)
    ensures Split(Slashed(part), SLASH) == [part]
  {
    SlashedTogether(part + [slash], rest);
    SlashedTogether(part, [slash]);
    SlashedHasNoBackslash(part);
    assert Slashed([slash]) == [SLASH];
    SplitAfter(part, SLASH, Slashed(rest));
  }

  lemma NothingUsable()
    ensures UsableParts([]) == []
  {
  }

  lemma UsableFirst(part: Bytes, parts: seq<Bytes>)
    ensures UsableParts([part] + parts) == (if Usable(part) then [part] else []) + UsableParts(parts)
  {
    assert ([part] + parts)[1..] == parts;
  }

  lemma {:induction false} FirstIsUsable(parts: seq<Bytes>)
    ensures var usable := UsableParts(parts); usable != [] ==> usable[0] != [] && Join(usable, [SLASH]) != []
  {
    if parts != [] && !Usable(parts[0]) { FirstIsUsable(parts[1..]); }
  }

  lemma JoinFirst(part: Bytes, parts: seq<Bytes>)
    ensures Join([part] + parts, [SLASH]) == if parts == [] then part else part + [SLASH] + Join(parts, [SLASH])
  {
    assert ([part] + parts)[1..] == parts;
  }

  /** Part by part, whichever slash separates them: a usable part stays where it is, any other is skipped, and a name
      without usable parts becomes the fallback. */
  lemma PartByPart(part: Bytes, slash: Byte, rest: Bytes)
    requires SLASH !in part && BACKSLASH !in part && slash in {SLASH, BACKSLASH}
    ensures var name := part + [slash] + rest;
            && (HasUsablePart(name) <==> Usable(part) || HasUsablePart(rest))
            && SafeZipPath(name) == if !Usable(part) then SafeZipPath(rest)
                                    else if HasUsablePart(rest) then part + [SLASH] + SafeZipPath(rest) else part
    ensures HasUsablePart(part) == Usable(part) && SafeZipPath(part) == if Usable(part) then part else FALLBACK
  {
    SplitSlashed(part, slash, rest);
    SlashedHasNoBackslash(rest);
    SplitParts(Slashed(rest), SLASH);
    var parts := Split(Slashed(rest), SLASH);
    UsableFirst(part, parts);
    UsableFirst(part, []);
    assert [part] == [part] + [] && [] + UsableParts(parts) == UsableParts(parts);
    hide Split, Slashed, UsableParts;
    assert UsableParts([]) == [] by { NothingUsable(); }
    JoinFirst(part, UsableParts(parts));
    JoinFirst(part, []);
    hide Join;
    FirstIsUsable(parts);
  }

  /** Every stored name is safe, sanitising twice is sanitising once, and exactly the safe names are left alone. */
  lemma SanitisedNamesAreSafe(name: Bytes)
    ensures IsSafePath(SafeZipPath(name))
    ensures SafeZipPath(SafeZipPath(name)) == SafeZipPath(name)
    ensures SafeZipPath(name) == name <==> IsSafePath(name)
    ensures 92 !in SafeZipPath(name)
            && forall part :: part in Split(SafeZipPath(name), 47) ==> part !in {[], [46], [46, 46]}
  {
    SafeResult(name);
    SafeIsFixed(SafeZipPath(name));
    if IsSafePath(name) { SafeIsFixed(name); }
  }
}
