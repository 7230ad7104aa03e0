/**
 * The analysis prompt the chat pre-fills from the `data`, `target` and
 * `common` search parameters: each parameter is read as a comma-separated
 * list, and the prompt is written once, into an empty input box, when all
 * three lists are non-empty.
 */
module ChatPrompt {
  import opened Wrappers
  import opened JsStrings

  /** `.map((entry) => entry.trim())` */
  function TrimAll(xs: seq<string>): (r: seq<string>)
    ensures |r| == |xs| && forall k :: 0 <= k < |xs| ==> r[k] == Trim(xs[k])
  {
    seq(|xs|, k requires 0 <= k < |xs| => Trim(xs[k]))
  }

  /** `.filter(Boolean)` on strings: drop the empty ones, keep the order. */
  function DropEmpty(xs: seq<string>): (r: seq<string>)
    ensures |r| <= |xs|
    ensures forall k :: 0 <= k < |r| ==> r[k] != "" && r[k] in xs
    ensures (forall k :: 0 <= k < |xs| ==> xs[k] != "") ==> r == xs
  {
    if |xs| == 0 then []
    else
      assert xs == [xs[0]] + xs[1..];
      (if xs[0] == "" then [] else [xs[0]]) + DropEmpty(xs[1..])
  }

  /** Filtering keeps every non-empty string as often as it occurs, and only those. */
  lemma {:induction false} DropEmptyMultiset(xs: seq<string>)
    ensures multiset(DropEmpty(xs)) == multiset(xs)["" := 0]
    decreases |xs|
  {
    if |xs| > 0 {
      DropEmptyMultiset(xs[1..]);
      ConsSplit(xs, []);
      DropEmptyCons(xs[0], xs[1..]);
    }
  }

  /** Filtering keeps the order: the survivors of `a` come before those of `b`. */
  lemma {:induction false} DropEmptyAppend(a: seq<string>, b: seq<string>)
    ensures DropEmpty(a + b) == DropEmpty(a) + DropEmpty(b)
    decreases |a|
  {
    if |a| == 0 {
      assert a + b == b;
    } else {
      DropEmptyAppend(a[1..], b);
      ConsSplit(a, b);
      DropEmptyCons(a[0], a[1..] + b);
      DropEmptyCons(a[0], a[1..]);
      AppendAssoc(if a[0] == "" then [] else [a[0]], DropEmpty(a[1..]), DropEmpty(b));
    }
  }

  lemma DropEmptyCons(x: string, xs: seq<string>)
    ensures DropEmpty([x] + xs) == (if x == "" then [] else [x]) + DropEmpty(xs)
  {
    assert ([x] + xs)[0] == x;
    assert ([x] + xs)[1..] == xs;
  }

  lemma TrimAllAppend(a: seq<string>, b: seq<string>)
    ensures TrimAll(a + b) == TrimAll(a) + TrimAll(b)
  {
  }

  /** A list as `normalizeList` produces it: every entry non-empty, trimmed and free of commas. */
  ghost predicate Normalized(xs: seq<string>) {
    forall k :: 0 <= k < |xs| ==> xs[k] != "" && Trim(xs[k]) == xs[k] && ',' !in xs[k]
  }

  /** `normalizeList`: a missing or empty parameter gives `[]`, otherwise split on `,`, trim, drop empties. */
  function NormalizeList(value: Option<string>): (r: seq<string>)
    ensures Normalized(r)
    ensures value.None? || value.value == "" ==> r == []
  {
    if value.None? || value.value == "" then []
    else
      var pieces := Split(value.value, ',');
      CleanedPiecesNormalized(pieces);
      DropEmpty(TrimAll(pieces))
  }

  /**
   * Which entries survive: every comma-separated piece that is not blank
   * appears trimmed, and every entry is some piece trimmed.
   */
  lemma NormalizeListContent(v: string)
    ensures var r, pieces := NormalizeList(Some(v)), Split(v, ',');
      && (forall k :: 0 <= k < |pieces| && Trim(pieces[k]) != "" ==> Trim(pieces[k]) in r)
      && (forall x :: x in r ==> exists k :: 0 <= k < |pieces| && Trim(pieces[k]) == x)
  {
    NormalizeListPipeline(v);
    CleanedPiecesContent(Split(v, ','));
  }

  /** Trimming comma-free pieces and dropping the empty ones gives a normalized list. */
  lemma CleanedPiecesNormalized(pieces: seq<string>)
    requires forall k :: 0 <= k < |pieces| ==> ',' !in pieces[k]
    ensures Normalized(DropEmpty(TrimAll(pieces)))
  {
    var t := TrimAll(pieces);
    forall j | 0 <= j < |t|
      ensures Trim(t[j]) == t[j] && ',' !in t[j]
    {
      TrimIdempotent(pieces[j]);
    }
    var r := DropEmpty(t);
    forall k | 0 <= k < |r|
      ensures r[k] != "" && Trim(r[k]) == r[k] && ',' !in r[k]
    {
      var j :| 0 <= j < |t| && t[j] == r[k];
    }
  }

  /** Cleaning keeps exactly the trimmed pieces that are not blank. */
  lemma CleanedPiecesContent(pieces: seq<string>)
    ensures var r := DropEmpty(TrimAll(pieces));
      && (forall k :: 0 <= k < |pieces| && Trim(pieces[k]) != "" ==> Trim(pieces[k]) in r)
      && (forall x :: x in r ==> exists k :: 0 <= k < |pieces| && Trim(pieces[k]) == x)
  {
    var t := TrimAll(pieces);
    var r := DropEmpty(t);
    DropEmptyMultiset(t);
    forall k | 0 <= k < |pieces| && Trim(pieces[k]) != ""
      ensures Trim(pieces[k]) in r
    {
      assert t[k] in multiset(t);
      assert t[k] in multiset(r);
    }
    forall x | x in r
      ensures exists k :: 0 <= k < |pieces| && Trim(pieces[k]) == x
    {
      var j :| 0 <= j < |t| && t[j] == x;
      assert Trim(pieces[j]) == x;
    }
  }

  /** `normalizeList` on a present parameter is the pipeline applied to its comma-split pieces, also for `""`. */
  lemma NormalizeListPipeline(v: string)
    ensures NormalizeList(Some(v)) == DropEmpty(TrimAll(Split(v, ',')))
  {
  }

  /** The list is empty iff every comma-separated piece is blank. */
  lemma NormalizeListKeepsPieces(v: string)
    ensures NormalizeList(Some(v)) == [] <==> forall k :: 0 <= k < |Split(v, ',')| ==> Trim(Split(v, ',')[k]) == ""
  {
    NormalizeListPipeline(v);
    DropEmptyIsEmpty(TrimAll(Split(v, ',')));
  }

  /** A parameter without commas gives its trimmed text, or nothing when that is blank. */
  lemma NormalizeListSinglePiece(v: string)
    requires ',' !in v
    ensures NormalizeList(Some(v)) == if Trim(v) == "" then [] else [Trim(v)]
  {
    SplitFreePrefix(v, "", ',');
    assert v + "" == v;
    var pieces := Split(v, ',');
    assert pieces == [v];
    NormalizeListPipeline(v);
    var t := TrimAll(pieces);
    assert t == [Trim(v)];
    assert DropEmpty(t) == (if Trim(v) == "" then [] else [Trim(v)]) + DropEmpty([]);
  }

  /**
   * Pieces keep their order: normalizing `a,b` gives the entries of `a`
   * followed by those of `b`. With `NormalizeListSinglePiece` this determines
   * `normalizeList` on every parameter.
   */
  lemma NormalizeListConcat(a: string, b: string)
    ensures NormalizeList(Some(a + [','] + b)) == NormalizeList(Some(a)) + NormalizeList(Some(b))
  {
    SplitConcat(a, b, ',');
    NormalizeListPipeline(a);
    NormalizeListPipeline(b);
    TrimAllAppend(Split(a, ','), Split(b, ','));
    DropEmptyAppend(TrimAll(Split(a, ',')), TrimAll(Split(b, ',')));
    assert a + [','] + b != "";
  }

  lemma {:induction false} DropEmptyIsEmpty(xs: seq<string>)
    ensures DropEmpty(xs) == [] <==> forall k :: 0 <= k < |xs| ==> xs[k] == ""
  {
    if |xs| > 0 {
      DropEmptyIsEmpty(xs[1..]);
      assert forall k :: 1 <= k < |xs| ==> xs[k] == xs[1..][k - 1];
    }
  }

  /** Trimming a normalized list changes nothing. */
  lemma TrimAllNormalized(xs: seq<string>)
    requires Normalized(xs)
    ensures TrimAll(xs) == xs
  {
  }

  /** A normalized list joined with `,` normalizes back to itself: `normalizeList` is idempotent. */
  lemma NormalizeListIdempotent(value: Option<string>)
    ensures var xs := NormalizeList(value); NormalizeList(Some(Join(xs, ','))) == xs
  {
    var xs := NormalizeList(value);
    if xs != [] {
      var joined := Join(xs, ',');
      SplitJoin(xs, ',');
      assert Split(joined, ',') == xs;
      assert joined != "";
      TrimAllNormalized(xs);
      assert DropEmpty(TrimAll(Split(joined, ','))) == xs;
    }
  }

  const LoadedFrom: string := "I have loaded data from "
  const LinkedBy: string := ". These datasets are linked by "
  const Predict: string := ". I would like you to analyze this information to predict "
  const ExplainMethodology: string := ". Please explain your methodology before proceeding."

  /** The prompt for the three lists. */
  function InjectedPrompt(dataSources: seq<string>, targets: seq<string>, commonColumns: seq<string>): (r: string)
    ensures StartsWith(r, LoadedFrom) && EndsWith(r, ExplainMethodology)
  {
    LoadedFrom + Join(dataSources, ',') + LinkedBy + Join(commonColumns, ',')
    + Predict + Join(targets, ',') + ExplainMethodology
  }

  /** The joined data sources follow the opening, and the link sentence follows them. */
  lemma InjectedPromptLayout(dataSources: seq<string>, targets: seq<string>, commonColumns: seq<string>)
    ensures OccursAt(InjectedPrompt(dataSources, targets, commonColumns), Join(dataSources, ',') + LinkedBy, |LoadedFrom|)
  {
    var d := Join(dataSources, ',');
    Regroup(LoadedFrom, d, LinkedBy, Join(commonColumns, ','), Predict, Join(targets, ','), ExplainMethodology);
    SliceAfter(LoadedFrom, d + LinkedBy, Join(commonColumns, ',') + Predict + Join(targets, ',') + ExplainMethodology);
  }

  lemma Regroup<T>(a: seq<T>, b: seq<T>, c: seq<T>, d: seq<T>, e: seq<T>, f: seq<T>, g: seq<T>)
    ensures a + b + c + d + e + f + g == a + (b + c) + (d + e + f + g)
  {
  }

  lemma SliceAfter<T>(a: seq<T>, m: seq<T>, z: seq<T>)
    ensures (a + m + z)[|a|..|a| + |m|] == m
  {
  }

  /** The effect's guard: not yet injected, three non-empty lists, and a blank input box. */
  predicate ShouldInjectPrompt(hasInjectedPrompt: bool, input: string, dataSources: seq<string>, targets: seq<string>, commonColumns: seq<string>) {
    && !hasInjectedPrompt
    && |dataSources| > 0 && |targets| > 0 && |commonColumns| > 0
    && |Trim(input)| == 0
  }

  /**
   * The effect's decision, in the order the effect checks: nothing once a
   * prompt was injected, nothing unless all three lists are non-empty,
   * nothing over a non-blank input; otherwise the prompt to put in the box.
   */
  function PromptToInject(hasInjectedPrompt: bool, input: string,
                          dataParam: Option<string>, targetParam: Option<string>, commonParam: Option<string>): (r: Option<string>)
    ensures var d, t, c := NormalizeList(dataParam), NormalizeList(targetParam), NormalizeList(commonParam);
      && (r.Some? <==> ShouldInjectPrompt(hasInjectedPrompt, input, d, t, c))
      && (r.Some? ==> r.value == InjectedPrompt(d, t, c))
  {
    if hasInjectedPrompt then None
    else
      var dataSources := NormalizeList(dataParam);
      var targets := NormalizeList(targetParam);
      var commonColumns := NormalizeList(commonParam);
      if |dataSources| == 0 || |targets| == 0 || |commonColumns| == 0 then None
      else if |Trim(input)| > 0 then None
      else Some(InjectedPrompt(dataSources, targets, commonColumns))
  }

  /** The injected prompt is not blank. */
  lemma InjectedPromptNotBlank(dataSources: seq<string>, targets: seq<string>, commonColumns: seq<string>)
    ensures |Trim(InjectedPrompt(dataSources, targets, commonColumns))| > 0
  {
    var p := InjectedPrompt(dataSources, targets, commonColumns);
    var last := |p| - 1;
    assert p[last] == '.';
    TrimNonBlank(p, last);
  }

  /**
   * The prompt is injected at most once: after an injection neither the flag
   * nor, even without the flag, the now non-blank input lets a second one through.
   */
  lemma PromptInjectedOnce(input: string, dataParam: Option<string>, targetParam: Option<string>, commonParam: Option<string>,
                           dataParam': Option<string>, targetParam': Option<string>, commonParam': Option<string>)
    requires PromptToInject(false, input, dataParam, targetParam, commonParam).Some?
    ensures var p := PromptToInject(false, input, dataParam, targetParam, commonParam).value;
      && PromptToInject(true, p, dataParam', targetParam', commonParam') == None
      && PromptToInject(false, p, dataParam', targetParam', commonParam') == None
  {
    var d, t, c := NormalizeList(dataParam), NormalizeList(targetParam), NormalizeList(commonParam);
    InjectedPromptNotBlank(d, t, c);
  }
}
