/**
 * The recipe detail page: the instruction steps (the text split at every line break,
 * full stop and `=>`, trimmed, blank pieces dropped) and the choice of what to render.
 */
module RecipeDetail {
  import opened Wrappers
  import opened Text
  import Seqs
  import RecipesSlice

  // ---------------------------------------------------------------------------
  // Splitting at `/\n|\.|=>/`

  /** One of the three separators of the step pattern. */
  predicate IsSeparator(sep: string) {
    sep == "\n" || sep == "." || sep == "=>"
  }

  /** A separator starts at position `i` of `s`. */
  predicate SeparatorAt(s: string, i: nat)
    requires i < |s|
  {
    s[i] == '\n' || s[i] == '.' || (s[i] == '=' && i + 1 < |s| && s[i + 1] == '>')
  }

  /** No separator starts anywhere in `p`. */
  predicate NoSeparator(p: string) {
    forall i: nat :: i < |p| ==> !SeparatorAt(p, i)
  }

  /**
   * `s.split(/\n|\.|=>/)`: the pieces between the separators found left to right, so
   * there is always at least one piece (`''` for the empty text).
   */
  function Split(s: string): (pieces: seq<string>)
    ensures |pieces| >= 1
    decreases |s|
  {
    if s == [] then [""]
    else if s[0] == '\n' || s[0] == '.' then [""] + Split(s[1..])
    else if |s| >= 2 && s[0] == '=' && s[1] == '>' then [""] + Split(s[2..])
    else
      var rest := Split(s[1..]);
      [[s[0]] + rest[0]] + rest[1..]
  }

  /** The first piece starts where the text does. */
  lemma SplitFirstChar(s: string)
    ensures Split(s)[0] != [] ==> s != [] && Split(s)[0][0] == s[0]
  {
  }

  /** No piece contains a separator. */
  lemma {:induction false} SplitPiecesClean(s: string)
    ensures forall k :: 0 <= k < |Split(s)| ==> NoSeparator(Split(s)[k])
    decreases |s|
  {
    if s == [] {
    } else if s[0] == '\n' || s[0] == '.' {
      SplitPiecesClean(s[1..]);
    } else if |s| >= 2 && s[0] == '=' && s[1] == '>' {
      SplitPiecesClean(s[2..]);
    } else {
      var rest := Split(s[1..]);
      SplitPiecesClean(s[1..]);
      SplitFirstChar(s[1..]);
      var first := [s[0]] + rest[0];
      assert forall i: nat :: 1 <= i < |first| ==> first[i] == rest[0][i - 1];
      assert forall i: nat :: 1 <= i < |first| ==> (SeparatorAt(first, i) <==> SeparatorAt(rest[0], i - 1));
      assert NoSeparator(first);
      assert Split(s) == [first] + rest[1..];
    }
  }

  /** The separators `Split` cuts at, in text order. */
  ghost function Separators(s: string): seq<string>
    decreases |s|
  {
    if s == [] then []
    else if s[0] == '\n' || s[0] == '.' then [[s[0]]] + Separators(s[1..])
    else if |s| >= 2 && s[0] == '=' && s[1] == '>' then ["=>"] + Separators(s[2..])
    else Separators(s[1..])
  }

  /** The pieces with the separators put back between them. */
  ghost function Interleave(pieces: seq<string>, seps: seq<string>): string
    requires |pieces| == |seps| + 1
    decreases |seps|
  {
    if seps == [] then pieces[0] else pieces[0] + seps[0] + Interleave(pieces[1..], seps[1..])
  }

  lemma InterleaveExtendFirst(x: string, pieces: seq<string>, seps: seq<string>)
    requires |pieces| == |seps| + 1
    ensures Interleave([x + pieces[0]] + pieces[1..], seps) == x + Interleave(pieces, seps)
  {
    var ps := [x + pieces[0]] + pieces[1..];
    assert ps[1..] == pieces[1..];
  }

  /** Putting the separators back between the pieces gives the text again. */
  lemma {:induction false} SplitRoundTrip(s: string)
    ensures |Split(s)| == |Separators(s)| + 1
    ensures Interleave(Split(s), Separators(s)) == s
    decreases |s|
  {
    if s == [] {
    } else if s[0] == '\n' || s[0] == '.' {
      SplitRoundTrip(s[1..]);
      var ps := [""] + Split(s[1..]);
      assert ps[1..] == Split(s[1..]);
      assert s == [s[0]] + s[1..];
    } else if |s| >= 2 && s[0] == '=' && s[1] == '>' {
      SplitRoundTrip(s[2..]);
      var ps := [""] + Split(s[2..]);
      assert ps[1..] == Split(s[2..]);
      assert s == "=>" + s[2..];
    } else {
      SplitRoundTrip(s[1..]);
      InterleaveExtendFirst([s[0]], Split(s[1..]), Separators(s[1..]));
      assert s == [s[0]] + s[1..];
    }
  }

  lemma NoSeparatorTail(p: string)
    requires p != [] && NoSeparator(p)
    ensures NoSeparator(p[1..])
  {
    forall i: nat | i < |p| - 1
      ensures !SeparatorAt(p[1..], i)
    {
      assert !SeparatorAt(p, i + 1);
    }
  }

  lemma JoinStartsOrdinary(p: string, t: string)
    requires p != [] && NoSeparator(p)
    requires t == [] || t[0] != '>'
    ensures !SeparatorAt(p + t, 0)
  {
    assert !SeparatorAt(p, 0);
    if |p| == 1 {
      assert |p + t| >= 2 ==> (p + t)[1] == t[0];
    } else {
      assert (p + t)[1] == p[1];
    }
  }

  lemma SplitAfterNothing(t: string)
    ensures Split([] + t) == [[] + Split(t)[0]] + Split(t)[1..]
  {
    var q := Split(t);
    assert [] + t == t && [] + q[0] == q[0];
    assert q == [q[0]] + q[1..];
  }

  /** A first character that starts no separator joins the first piece of the rest. */
  lemma SplitCons(c: char, u: string)
    requires !SeparatorAt([c] + u, 0)
    ensures Split([c] + u) == [[c] + Split(u)[0]] + Split(u)[1..]
  {
    assert ([c] + u)[1..] == u;
  }

  /** A separator-free piece followed by text that does not start with `>` stays one piece. */
  lemma {:induction false} SplitAfterPiece(p: string, t: string)
    requires NoSeparator(p)
    requires t == [] || t[0] != '>'
    ensures Split(p + t) == [p + Split(t)[0]] + Split(t)[1..]
    decreases |p|
  {
    if p == [] {
      SplitAfterNothing(t);
    } else {
      var q := Split(t);
      var u := p[1..] + t;
      NoSeparatorTail(p);
      SplitAfterPiece(p[1..], t);
      JoinStartsOrdinary(p, t);
      assert p + t == [p[0]] + u;
      SplitCons(p[0], u);
      assert [p[0]] + (p[1..] + q[0]) == p + q[0];
    }
  }

  /** The text right after a separator is split on its own. */
  lemma SplitAfterSeparator(sep: string, rest: string)
    requires IsSeparator(sep)
    ensures Split(sep + rest) == [""] + Split(rest)
  {
    var s := sep + rest;
    if sep == "=>" {
      assert s[2..] == rest;
    } else {
      assert s[1..] == rest;
    }
  }

  /** Splitting separator-free pieces joined by separators gives the pieces back. */
  lemma {:induction false} SplitOfInterleave(pieces: seq<string>, seps: seq<string>)
    requires |pieces| == |seps| + 1
    requires forall k :: 0 <= k < |pieces| ==> NoSeparator(pieces[k])
    requires forall k :: 0 <= k < |seps| ==> IsSeparator(seps[k])
    ensures Split(Interleave(pieces, seps)) == pieces
    decreases |seps|
  {
    if seps == [] {
      SplitAfterPiece(pieces[0], []);
      assert pieces[0] + [] == pieces[0];
      assert pieces == [pieces[0]];
    } else {
      var rest := Interleave(pieces[1..], seps[1..]);
      SplitOfInterleave(pieces[1..], seps[1..]);
      SplitAfterSeparator(seps[0], rest);
      SplitAfterPiece(pieces[0], seps[0] + rest);
      assert Interleave(pieces, seps) == pieces[0] + (seps[0] + rest);
      var q := Split(seps[0] + rest);
      assert q[0] == "" && q[1..] == pieces[1..];
      assert pieces[0] + q[0] == pieces[0];
      assert pieces == [pieces[0]] + pieces[1..];
    }
  }

  /** A block cut out of a separator-free text is separator-free. */
  lemma CoreHasNoSeparator(r: string, s: string)
    requires NoSeparator(s) && IsCoreOf(r, s)
    ensures NoSeparator(r)
  {
    var a :| IsCoreAt(r, s, a);
    assert forall i: nat :: i < |r| ==> r[i] == s[a + i];
    assert forall i: nat :: i < |r| ==> (SeparatorAt(r, i) ==> SeparatorAt(s, a + i));
  }

  // ---------------------------------------------------------------------------
  // The steps

  /**
   * `steps`: nothing without a detail record; otherwise the trimmed pieces of the
   * instructions that are not blank, in text order. No step is empty, has whitespace at
   * either end or contains a separator.
   */
  function Steps(single: Option<RecipesSlice.Recipe>): (steps: seq<string>)
    ensures single.None? ==> steps == []
    ensures single.Some? ==> Seqs.IsSubsequence(steps, TrimEach(Split(single.value.instructions)))
    ensures single.Some? ==> |steps| == CountNonBlank(Split(single.value.instructions))
    ensures forall k :: 0 <= k < |steps| ==> steps[k] != "" && Trimmed(steps[k]) && NoSeparator(steps[k])
  {
    match single
    case None => []
    case Some(r) =>
      var pieces := Split(r.instructions);
      SplitPiecesClean(r.instructions);
      var steps := TrimAndDropEmpty(pieces);
      forall k | 0 <= k < |steps|
        ensures NoSeparator(steps[k])
      {
        Seqs.SubsequenceElements(steps, TrimEach(pieces), k);
        var j :| 0 <= j < |pieces| && TrimEach(pieces)[j] == steps[k];
        TrimIsCore(pieces[j]);
        CoreHasNoSeparator(steps[k], pieces[j]);
      }
      steps
  }

  /** Instructions without a separator that are not blank make exactly one step: the trimmed text. */
  lemma SingleStep(r: RecipesSlice.Recipe)
    requires NoSeparator(r.instructions) && !AllSpace(r.instructions)
    ensures Steps(Some(r)) == [Trim(r.instructions)]
  {
    SplitAfterPiece(r.instructions, []);
    assert r.instructions + [] == r.instructions;
    var pieces := Split(r.instructions);
    assert pieces == [r.instructions];
    assert pieces[1..] == [];
  }

  /** Blank instructions make no step. */
  lemma BlankInstructionsNoSteps(r: RecipesSlice.Recipe)
    requires AllSpace(r.instructions)
    ensures Steps(Some(r)) == []
  {
    var pieces := Split(r.instructions);
    SplitRoundTrip(r.instructions);
    forall j | 0 <= j < |pieces|
      ensures AllSpace(pieces[j])
    {
      InterleavedPieceIsBlock(pieces, Separators(r.instructions), j);
    }
  }

  /** Each piece is a block of the joined text, so a blank text has only blank pieces. */
  lemma {:induction false} InterleavedPieceIsBlock(pieces: seq<string>, seps: seq<string>, j: nat)
    requires |pieces| == |seps| + 1 && j < |pieces|
    requires AllSpace(Interleave(pieces, seps))
    ensures AllSpace(pieces[j])
    decreases |seps|
  {
    var s := Interleave(pieces, seps);
    if seps != [] {
      var rest := Interleave(pieces[1..], seps[1..]);
      assert s == pieces[0] + (seps[0] + rest);
      assert forall i :: 0 <= i < |pieces[0]| ==> pieces[0][i] == s[i];
      assert forall i :: 0 <= i < |rest| ==> rest[i] == s[|pieces[0]| + |seps[0]| + i];
      if j > 0 {
        InterleavedPieceIsBlock(pieces[1..], seps[1..], j - 1);
      }
    }
  }

  // ---------------------------------------------------------------------------
  // Rendering

  /** The instructions section: a numbered list of the steps, or the instructions as written. */
  datatype InstructionsView = NumberedSteps(steps: seq<string>) | RawText(text: string)

  /** What the detail page shows. */
  datatype DetailScreen =
    | LoadingText
    | ErrorView(message: string)
    | NotFound
    | Details(recipe: RecipesSlice.Recipe, instructions: InstructionsView)

  /**
   * The page: loading first, then a non-empty error, then the missing record, then the
   * details, whose instructions are numbered only when there is more than one step.
   */
  function Screen(loading: bool, error: string, single: Option<RecipesSlice.Recipe>): (v: DetailScreen)
    ensures v.LoadingText? <==> loading
    ensures v.ErrorView? <==> !loading && error != ""
    ensures v.ErrorView? ==> v.message == error
    ensures v.NotFound? <==> !loading && error == "" && single.None?
    ensures v.Details? ==> Some(v.recipe) == single
    ensures v.Details? && v.instructions.NumberedSteps? ==> v.instructions.steps == Steps(single) && |v.instructions.steps| > 1
    ensures v.Details? && v.instructions.RawText? ==> v.instructions.text == v.recipe.instructions && |Steps(single)| <= 1
  {
    if loading then LoadingText
    else if error != "" then ErrorView(error)
    else match single
      case None => NotFound
      case Some(r) =>
        var steps := Steps(single);
        Details(r, if |steps| > 1 then NumberedSteps(steps) else RawText(r.instructions))
  }

  /** A one-sentence recipe is shown as written, not as a list. */
  lemma OneSentenceShownRaw(r: RecipesSlice.Recipe)
    requires NoSeparator(r.instructions)
    ensures Screen(false, "", Some(r)) == Details(r, RawText(r.instructions))
  {
    if AllSpace(r.instructions) {
      BlankInstructionsNoSteps(r);
    } else {
      SingleStep(r);
    }
  }
}
