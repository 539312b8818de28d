/**
  The text helpers of a processor tile: title-casing a name, the short
  generation label with the vendor word stripped, and the processor id read
  back from an offer id.
 */
module CpuTile {
  import opened Wrappers
  import opened Seqs
  import opened Text
  import opened CpuData

  // ---------------------------------------------------------------- titleCase

  /** `w ? w[0].toUpperCase() + w.slice(1) : w`. */
  function Capitalize(w: string): (r: string)
    ensures |r| == |w|
    ensures forall k :: 0 < k < |w| ==> r[k] == w[k]
    ensures w != [] ==> r[0] == UpperChar(w[0])
  {
    if w == [] then w else [UpperChar(w[0])] + w[1..]
  }

  /** `titleCase`: lower-case, split at white-space runs, capitalise every word, join with single spaces. */
  function TitleCase(s: string): (r: string)
    ensures forall i :: 0 <= i < |r| ==> !IsJsSpace(r[i]) || r[i] == ' '
    ensures forall i :: 0 <= i < |r| - 1 ==> !(IsJsSpace(r[i]) && IsJsSpace(r[i + 1]))
  {
    var ws := SplitRuns(Lower(s), IsJsSpace);
    var cs := Map(ws, Capitalize);
    SplitRunsPieces(Lower(s), IsJsSpace);
    CapitalizePieces(ws);
    JoinChars(cs, IsJsSpace, ' ');
    JoinNoDoubled(cs, IsJsSpace, ' ');
    Join(cs, [' '])
  }

  /** Capitalising keeps the words free of white space and non-empty. */
  lemma CapitalizePieces(ws: seq<string>)
    requires RunPieces(ws, IsJsSpace)
    ensures RunPieces(Map(ws, Capitalize), IsJsSpace)
  {
    var cs := Map(ws, Capitalize);
    forall k | 0 <= k < |cs| ensures NoneIn(cs[k], IsJsSpace) {
      assert NoneIn(ws[k], IsJsSpace);
    }
  }

  /** Splitting the output at white space gives back the words of the input, each capitalised. */
  lemma TitleCaseWords(s: string)
    ensures SplitRuns(TitleCase(s), IsJsSpace) == Map(SplitRuns(Lower(s), IsJsSpace), Capitalize)
  {
    var ws := SplitRuns(Lower(s), IsJsSpace);
    SplitRunsPieces(Lower(s), IsJsSpace);
    CapitalizePieces(ws);
    SplitRunsJoin(Map(ws, Capitalize), IsJsSpace, ' ');
  }

  /** The pieces of a string without some class of characters are without it too. */
  lemma {:induction false} SplitRunsKeeps(s: string, cls: char -> bool, q: char -> bool)
    requires NoneIn(s, q)
    ensures forall k :: 0 <= k < |SplitRuns(s, cls)| ==> NoneIn(SplitRuns(s, cls)[k], q)
    decreases |s|
  {
    var i := FirstIn(s, cls);
    if i < |s| {
      var j := i + RunEnd(s[i..], cls);
      assert AfterRun(s, cls) == s[j..];
      NoneInSlice(s, q, j, |s|);
      NoneInSlice(s, q, 0, i);
      assert s[j..|s|] == s[j..] && s[0..i] == s[..i];
      SplitRunsKeeps(s[j..], cls, q);
      var r := SplitRuns(s, cls);
      assert r == [s[..i]] + SplitRuns(s[j..], cls);
    }
  }

  lemma NoneInSlice(s: string, q: char -> bool, a: nat, b: nat)
    requires NoneIn(s, q) && a <= b <= |s|
    ensures NoneIn(s[a..b], q)
  {
    assert forall k :: 0 <= k < b - a ==> s[a..b][k] == s[a + k];
  }

  /** Lower-casing a space-joined string lower-cases each piece. */
  lemma {:induction false} LowerJoin(ws: seq<string>)
    ensures Lower(Join(ws, [' '])) == Join(Map(ws, Lower), [' '])
  {
    if |ws| > 1 {
      LowerJoin(ws[1..]);
      assert Map(ws, Lower)[1..] == Map(ws[1..], Lower);
      LowerAppend(ws[0] + [' '], Join(ws[1..], [' ']));
      LowerAppend(ws[0], [' ']);
    }
  }

  /** A capitalised lower-case word lower-cases back to itself. */
  lemma LowerCapitalize(w: string)
    requires NoneIn(w, IsAsciiUpper)
    ensures Lower(Capitalize(w)) == w
  {
    if w != [] {
      assert !IsAsciiUpper(w[0]);
    }
  }

  /** Title-casing twice is title-casing once. */
  lemma TitleCaseIdempotent(s: string)
    ensures TitleCase(TitleCase(s)) == TitleCase(s)
  {
    var ws := SplitRuns(Lower(s), IsJsSpace);
    var cs := Map(ws, Capitalize);
    var t := Join(cs, [' ']);
    LowerJoin(cs);
    SplitRunsKeeps(Lower(s), IsJsSpace, IsAsciiUpper);
    forall k | 0 <= k < |ws| ensures Lower(cs[k]) == ws[k] {
      LowerCapitalize(ws[k]);
    }
    assert Map(cs, Lower) == ws;
    SplitRunsPieces(Lower(s), IsJsSpace);
    SplitRunsJoin(ws, IsJsSpace, ' ');
  }

  // ---------------------------------------------------------------- shortGeneration

  /** `s` starts with the lower-case word `w`, in any letter case (the regex flag `i`). */
  predicate StartsWithFolded(s: string, w: string) {
    |s| >= |w| && Lower(s[..|w|]) == w
  }

  /** `g.replace(/^(intel|amd)\s*\/i, "")`: a leading vendor word and the white space after it go. */
  function StripVendor(g: string): (r: string)
    ensures |r| <= |g| && r == g[|g| - |r|..]
    ensures !StartsWithFolded(g, "intel") && !StartsWithFolded(g, "amd") ==> r == g
    ensures StartsWithFolded(g, "intel") || StartsWithFolded(g, "amd") ==> r == [] || !IsJsSpace(r[0])
    ensures StartsWithFolded(g, "intel") ==> |r| <= |g| - 5
    ensures StartsWithFolded(g, "amd") ==> |r| <= |g| - 3
  {
    if StartsWithFolded(g, "intel") then g[5..][LeadingSpaces(g[5..])..]
    else if StartsWithFolded(g, "amd") then g[3..][LeadingSpaces(g[3..])..]
    else g
  }

  /** `shortGeneration`: nothing for a missing or empty generation, else the title-cased rest after the vendor word. */
  function ShortGeneration(g: Option<string>): (r: Option<string>)
    ensures r.None? <==> g.None? || g.value == ""
    ensures r.Some? ==> forall i :: 0 <= i < |r.value| - 1 ==> !(IsJsSpace(r.value[i]) && IsJsSpace(r.value[i + 1]))
  {
    if g.None? || g.value == "" then None
    else Some(TitleCase(Trim(StripVendor(g.value))))
  }

  /** The white space after the vendor word would be trimmed anyway: stripping is dropping the word, then trimming. */
  lemma StripThenTrim(g: string, n: nat)
    requires (n == 5 && StartsWithFolded(g, "intel")) || (n == 3 && StartsWithFolded(g, "amd"))
    ensures Trim(StripVendor(g)) == Trim(g[n..])
  {
    if n == 3 {
      AmdIsNotIntel(g);
    }
    TrimAfterLeading(g[n..]);
  }

  lemma AmdIsNotIntel(g: string)
    requires StartsWithFolded(g, "amd")
    ensures !StartsWithFolded(g, "intel")
  {
    if |g| >= 5 {
      assert Lower(g[..5])[0] == LowerChar(g[0]) == Lower(g[..3])[0];
    }
  }

  /** Trimming after dropping the leading white space is trimming. */
  lemma TrimAfterLeading(t: string)
    ensures Trim(t[LeadingSpaces(t)..]) == Trim(t)
  {
    var a := LeadingSpaces(t);
    assert LeadingSpaces(t[a..]) == 0;
    assert t[a..][0..] == t[a..];
  }

  /** The vendor word needs no word boundary: "Intelligent" loses its first five letters. */
  lemma NoWordBoundary()
    ensures ShortGeneration(Some("Intelligent")) == Some("Ligent")
  {
    StripIntelligent();
    TitleLigent();
  }

  lemma StripIntelligent()
    ensures Trim(StripVendor("Intelligent")) == "ligent"
  {
    assert "Intelligent"[..5] == "Intel";
    assert Lower("Intel") == "intel";
    assert StartsWithFolded("Intelligent", "intel");
    assert "Intelligent"[5..] == "ligent";
    assert LeadingSpaces("ligent") == 0;
    assert StripVendor("Intelligent") == "ligent";
    TrimNoEdgeSpace("ligent");
  }

  lemma TitleLigent()
    ensures TitleCase("ligent") == "Ligent"
  {
    assert Lower("ligent") == "ligent";
    SplitRunsNoClass("ligent", IsJsSpace);
    assert Capitalize("ligent") == "Ligent";
    assert Map(["ligent"], Capitalize) == ["Ligent"];
  }

  /** A generation that is only the vendor word gives the empty label, not nothing. */
  lemma VendorOnly()
    ensures ShortGeneration(Some("AMD ")) == Some("")
  {
    assert StartsWithFolded("AMD ", "amd");
    assert StripVendor("AMD ") == "";
    SplitRunsNoClass("", IsJsSpace);
  }

  // ---------------------------------------------------------------- productSlug

  /** `offer.id.includes("__") ? offer.id.split("__")[0] : undefined`. */
  function ProductSlugOf(id: string): (r: Option<string>)
    ensures r.None? <==> !Contains(id, "__")
    ensures r.Some? ==> IndexOf(id, "__").Some? && r.value == id[..IndexOf(id, "__").value]
    ensures r.Some? ==> !Contains(r.value, "__")
  {
    if Contains(id, "__") then
      SplitHead(id, "__");
      var i := IndexOf(id, "__").value;
      PrefixBeforeFirst(id, "__", i);
      Some(Split(id, "__")[0])
    else None
  }

  /** What precedes the first occurrence of `sub` holds no occurrence of it. */
  lemma PrefixBeforeFirst(s: string, sub: string, i: nat)
    requires |sub| > 0
    requires IndexOf(s, sub) == Some(i)
    ensures !Contains(s[..i], sub)
  {
    forall k: nat | k <= |s[..i]| ensures !OccursAt(s[..i], sub, k) {
      if OccursAt(s[..i], sub, k) {
        assert s[..i][k..k + |sub|] == s[k..k + |sub|];
        assert OccursAt(s, sub, k);
      }
    }
  }

  /** The tile links an offer to its processor: the id of an offer of a processor whose id has no "__" and does not end in "_" gives that id back. */
  lemma ProductSlugOfOfferId(cpuId: string, store: string)
    requires !Contains(cpuId, "__")
    requires cpuId == [] || cpuId[|cpuId| - 1] != '_'
    ensures ProductSlugOf(OfferIdFor(cpuId, store)) == Some(cpuId)
  {
    var id := OfferIdFor(cpuId, store);
    assert OccursAt(id, "__", |cpuId|);
    ParseOfferIdFor(cpuId, store);
  }
}
