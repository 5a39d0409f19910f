/** File names inside the downloads directory: the `.part` and `.part.meta` companions of a
    destination, and the search for a destination name nobody uses. */
module Names {
  const PART_SUFFIX := ".part"
  const META_SUFFIX := ".meta"

  function PartName(dest: string): string { dest + PART_SUFFIX }
  function MetaName(dest: string): string { dest + PART_SUFFIX + META_SUFFIX }

  predicate EndsWith(name: string, suffix: string) {
    |suffix| <= |name| && name[|name| - |suffix|..] == suffix
  }

  /** A name that can be neither a partial download nor a sidecar. */
  predicate Plain(name: string) {
    !EndsWith(name, PART_SUFFIX) && !EndsWith(name, PART_SUFFIX + META_SUFFIX)
  }

  lemma CompanionsAreNotPlain(d: string)
    ensures !Plain(PartName(d)) && !Plain(MetaName(d))
    ensures PartName(d) != d && MetaName(d) != d && PartName(d) != MetaName(d)
  {
    assert PartName(d)[|d|..] == PART_SUFFIX;
    assert MetaName(d)[|d|..] == PART_SUFFIX + META_SUFFIX;
  }

  lemma CompanionsAreInjective(d: string, e: string)
    ensures PartName(d) == PartName(e) ==> d == e
    ensures MetaName(d) == MetaName(e) ==> d == e
    ensures PartName(d) != MetaName(e)
  {
    assert PartName(d)[..|d|] == d && PartName(e)[..|e|] == e;
    assert MetaName(d)[..|d|] == d && MetaName(e)[..|e|] == e;
    assert PartName(d)[|PartName(d)| - 1] == 't';
    assert MetaName(e)[|MetaName(e)| - 1] == 'a';
  }

  // ---- os.path.splitext -------------------------------------------------

  function LastDot(name: string): (i: int)
    ensures -1 <= i < |name|
    ensures i >= 0 ==> name[i] == '.'
    ensures forall k :: i < k < |name| ==> name[k] != '.'
  {
    if name == [] then -1
    else if name[|name| - 1] == '.' then |name| - 1
    else LastDot(name[..|name| - 1])
  }

  /** Where the extension starts; leading dots do not start one. */
  function ExtensionStart(name: string): (k: nat)
    ensures k <= |name|
    ensures k < |name| ==> name[k] == '.' && forall i :: k < i < |name| ==> name[i] != '.'
  {
    var dot := LastDot(name);
    if dot > 0 && (exists i :: 0 <= i < dot && name[i] != '.') then dot else |name|
  }

  function Stem(name: string): string { name[..ExtensionStart(name)] }
  function Extension(name: string): string { name[ExtensionStart(name)..] }

  // ---- numbered candidates ---------------------------------------------

  const DIGITS := "0123456789"

  function Decimal(n: nat): (s: string)
    ensures s != ""
  {
    if n < 10 then [DIGITS[n]] else Decimal(n / 10) + [DIGITS[n % 10]]
  }

  lemma DigitsDiffer(a: nat, b: nat)
    requires a < 10 && b < 10 && DIGITS[a] == DIGITS[b]
    ensures a == b
  {
  }

  lemma {:induction false} DecimalInjective(a: nat, b: nat)
    requires Decimal(a) == Decimal(b)
    ensures a == b
    decreases a + b
  {
    var s, t := Decimal(a), Decimal(b);
    assert s[|s| - 1] == DIGITS[a % 10] && t[|t| - 1] == DIGITS[b % 10];
    DigitsDiffer(a % 10, b % 10);
    if a >= 10 && b >= 10 {
      assert s[..|s| - 1] == Decimal(a / 10) && t[..|t| - 1] == Decimal(b / 10);
      DecimalInjective(a / 10, b / 10);
    }
  }

  function Candidate(name: string, k: nat): string {
    if k == 0 then name else Stem(name) + " (" + Decimal(k) + ")" + Extension(name)
  }

  lemma CandidateInjective(name: string, j: nat, k: nat)
    requires Candidate(name, j) == Candidate(name, k)
    ensures j == k
  {
    var a, b := Candidate(name, j), Candidate(name, k);
    if j > 0 && k > 0 {
      var p, q := |Stem(name)| + 2, |Extension(name)| + 1;
      assert a[p..|a| - q] == Decimal(j);
      assert b[p..|b| - q] == Decimal(k);
      DecimalInjective(j, k);
    }
  }

  lemma DifferentEnding(c: string, suffix: string, j: nat)
    requires 0 < j <= |suffix| && (|suffix| <= |c| ==> c[|c| - j] != suffix[|suffix| - j])
    ensures !EndsWith(c, suffix)
  {
    if |suffix| <= |c| {
      assert c[|c| - |suffix|..][|suffix| - j] == c[|c| - j];
    }
  }

  /** The last dot is five characters from the end, and there is no closing parenthesis. */
  predicate LateDot(suffix: string) {
    && |suffix| >= 5 && suffix[|suffix| - 5] == '.'
    && (forall i :: |suffix| - 5 < i < |suffix| ==> suffix[i] != '.')
    && (forall i :: 0 <= i < |suffix| ==> suffix[i] != ')')
  }

  lemma SuffixesHaveLateDot()
    ensures LateDot(PART_SUFFIX) && LateDot(PART_SUFFIX + META_SUFFIX)
  {
  }

  /** c is something ending in ")" followed by an extension. */
  predicate Numbered(c: string, ext: string) {
    && |ext| < |c| && c[|c| - |ext|..] == ext && c[|c| - |ext| - 1] == ')'
    && (ext != "" ==> ext[0] == '.' && forall i :: 0 < i < |ext| ==> ext[i] != '.')
  }

  lemma NumberedEnding(c: string, ext: string, name: string, suffix: string)
    requires LateDot(suffix) && Numbered(c, ext) && EndsWith(name, ext) && !EndsWith(name, suffix)
    ensures !EndsWith(c, suffix)
  {
    var n := |c|;
    assert forall i :: 0 <= i < |ext| ==> c[n - |ext| + i] == ext[i];
    if |ext| == 5 && |suffix| == 5 {
      assert name[|name| - 5..] == ext == c[n - 5..];
    } else if 0 < |ext| < 5 {
      DifferentEnding(c, suffix, |ext|);
    } else if |ext| > 5 {
      DifferentEnding(c, suffix, 5);
    } else {
      DifferentEnding(c, suffix, |ext| + 1);
    }
  }

  /** Numbering a plain name never produces a partial or a sidecar name: both suffixes have
      their last dot five characters from the end, and only the extension has dots that late. */
  lemma CandidateIsPlain(name: string, k: nat)
    requires Plain(name)
    ensures Plain(Candidate(name, k))
  {
    if k > 0 {
      var c, ext := Candidate(name, k), Extension(name);
      assert c == (Stem(name) + " (" + Decimal(k)) + [')'] + ext;
      assert Numbered(c, ext) && EndsWith(name, ext);
      SuffixesHaveLateDot();
      NumberedEnding(c, ext, name, PART_SUFFIX);
      NumberedEnding(c, ext, name, PART_SUFFIX + META_SUFFIX);
    }
  }

  // ---- resolve_safe_dest_path -------------------------------------------

  predicate Blocked(used: set<string>, c: string, allowPart: bool) {
    c in used || (!allowPart && PartName(c) in used)
  }

  predicate AllBlocked(used: set<string>, name: string, allowPart: bool, k: nat) {
    forall j: nat :: j < k ==> Blocked(used, Candidate(name, j), allowPart)
  }

  lemma {:induction false} DistinctNamesFit(used: set<string>, name: string, js: set<nat>)
    requires forall j :: j in js ==> Candidate(name, j) in used
    ensures |js| <= |used|
    decreases |js|
  {
    if js != {} {
      var j :| j in js;
      forall i | i in js - {j} ensures Candidate(name, i) in used - {Candidate(name, j)} {
        if Candidate(name, i) == Candidate(name, j) { CandidateInjective(name, i, j); }
      }
      DistinctNamesFit(used - {Candidate(name, j)}, name, js - {j});
    }
  }

  lemma {:induction false} DistinctPartsFit(used: set<string>, name: string, js: set<nat>)
    requires forall j :: j in js ==> PartName(Candidate(name, j)) in used
    ensures |js| <= |used|
    decreases |js|
  {
    if js != {} {
      var j :| j in js;
      forall i | i in js - {j} ensures PartName(Candidate(name, i)) in used - {PartName(Candidate(name, j))} {
        CompanionsAreInjective(Candidate(name, i), Candidate(name, j));
        if Candidate(name, i) == Candidate(name, j) { CandidateInjective(name, i, j); }
      }
      DistinctPartsFit(used - {PartName(Candidate(name, j))}, name, js - {j});
    }
  }

  function Below(k: nat): (js: set<nat>)
    ensures |js| == k && forall j :: j in js <==> 0 <= j < k
  {
    if k == 0 then {} else Below(k - 1) + {k - 1}
  }

  /** Each refused candidate uses up one existing file, so at most 2 * |used| are refused. */
  lemma FewRefusals(used: set<string>, name: string, allowPart: bool, k: nat)
    requires AllBlocked(used, name, allowPart, k)
    ensures k <= 2 * |used|
  {
    var asDest := set j | j in Below(k) && Candidate(name, j) in used;
    var asPart := Below(k) - asDest;
    assert Below(k) == asDest + asPart;
    DistinctNamesFit(used, name, asDest);
    forall j | j in asPart ensures PartName(Candidate(name, j)) in used {
      assert Blocked(used, Candidate(name, j), allowPart);
    }
    DistinctPartsFit(used, name, asPart);
  }

  /** The first candidate nobody uses, counting from k. */
  function FirstFree(used: set<string>, name: string, allowPart: bool, k: nat): (c: string)
    requires AllBlocked(used, name, allowPart, k)
    ensures !Blocked(used, c, allowPart)
    ensures exists j: nat :: c == Candidate(name, j)
    decreases 2 * |used| - k
  {
    var c := Candidate(name, k);
    if !Blocked(used, c, allowPart) then c
    else
      FewRefusals(used, name, allowPart, k + 1);
      FirstFree(used, name, allowPart, k + 1)
  }

  function Destination(used: set<string>, name: string, allowPart: bool): (c: string)
    ensures !Blocked(used, c, allowPart)
    ensures Plain(name) ==> Plain(c)
  {
    var c := FirstFree(used, name, allowPart, 0);
    assert Plain(name) ==> Plain(c) by {
      var j: nat :| c == Candidate(name, j);
      if Plain(name) { CandidateIsPlain(name, j); }
    }
    c
  }

  /** A name is kept as it is exactly when nobody uses it. */
  lemma DestinationKeepsFreeName(used: set<string>, name: string, allowPart: bool)
    ensures Destination(used, name, allowPart) == name <==> !Blocked(used, name, allowPart)
  {
    assert Candidate(name, 0) == name;
  }

  /** Nobody uses the name settled on, nor, unless that is allowed, its part name. */
  lemma DestinationIsUnused(used: set<string>, name: string, allowPart: bool)
    ensures var c := Destination(used, name, allowPart);
            c !in used && (allowPart || c + ".part" !in used)
  {
  }

  /** It is the first such: the name itself, or the name with the smallest number in brackets
      before its extension, all before it being in use. */
  lemma {:induction false} DestinationIsFirst(used: set<string>, name: string, allowPart: bool, k: nat)
    requires AllBlocked(used, name, allowPart, k)
    ensures exists n: nat :: k <= n && FirstFree(used, name, allowPart, k) == Candidate(name, n)
              && forall j: nat :: j < n ==> InUse(used, Candidate(name, j), allowPart)
    decreases 2 * |used| - k
  {
    if Blocked(used, Candidate(name, k), allowPart) {
      FirstFreeSkipsBlocked(used, name, allowPart, k);
      FewRefusals(used, name, allowPart, k + 1);
      DestinationIsFirst(used, name, allowPart, k + 1);
    } else {
      assert FirstFree(used, name, allowPart, k) == Candidate(name, k);
    }
  }

  predicate InUse(used: set<string>, c: string, allowPart: bool) {
    c in used || (!allowPart && c + ".part" in used)
  }

  /** The extension begins at the last dot, if anything but dots stands before it; a name that
      begins with its only dots has none. Stem and extension make up the name. */
  lemma ExtensionIsAfterLastDot(name: string)
    ensures Stem(name) + Extension(name) == name
    ensures Extension(name) != "" <==> exists i, j :: 0 <= i < j < |name| && name[i] != '.' && name[j] == '.'
    ensures Extension(name) != "" ==> Extension(name)[0] == '.' && '.' !in Extension(name)[1..]
  {
    var k := ExtensionStart(name);
    if k < |name| {
      var i :| 0 <= i < k && name[i] != '.';
      assert name[k] == '.';
    } else {
      forall i, j | 0 <= i < j < |name| && name[i] != '.' ensures name[j] != '.' {
        assert name[j] == '.' ==> LastDot(name) >= j;
      }
    }
  }

  lemma FirstFreeSkipsBlocked(used: set<string>, name: string, allowPart: bool, k: nat)
    requires AllBlocked(used, name, allowPart, k)
    requires Blocked(used, Candidate(name, k), allowPart)
    ensures k + 1 <= 2 * |used| && AllBlocked(used, name, allowPart, k + 1)
    ensures FirstFree(used, name, allowPart, k) == FirstFree(used, name, allowPart, k + 1)
  {
    assert AllBlocked(used, name, allowPart, k + 1);
    FewRefusals(used, name, allowPart, k + 1);
  }

  /** resolve_safe_dest_path's search. It always terminates, on an unused path. */
  method ResolveDestination(used: set<string>, name: string, allowPart: bool) returns (candidate: string)
    ensures candidate == Destination(used, name, allowPart)
    ensures candidate !in used && (allowPart || PartName(candidate) !in used)
  {
    candidate := name;
    var counter: nat := 1;
    while Blocked(used, candidate, allowPart)
      invariant counter >= 1 && candidate == Candidate(name, counter - 1)
      invariant AllBlocked(used, name, allowPart, counter - 1)
      invariant FirstFree(used, name, allowPart, counter - 1) == FirstFree(used, name, allowPart, 0)
      decreases 2 * |used| - counter
    {
      FirstFreeSkipsBlocked(used, name, allowPart, counter - 1);
      candidate := Candidate(name, counter);
      counter := counter + 1;
    }
  }
}
