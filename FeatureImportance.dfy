/** The feature-importance screen: fetch the model's per-feature importance
    scores, find them in whichever envelope the service used, rank them from
    most to least important and colour each bar by a severity band. */
module FeatureImportance {
  import opened Js
  import opened Http

  const LoadFailedMessage: string := "Failed to load feature importance data. Please try again later."

  // ---------------------------------------------------------------------------
  // Finding the scores in the response body

  /** The three places probed, in order: `data?.feature_importance`,
      `data?.data?.feature_importance` and `data?.[0]?.feature_importance`. */
  function Candidates(data: Value): (cs: seq<Value>)
    ensures |cs| == 3
    ensures !data.Obj? && !data.Arr? ==> cs == [Undefined, Undefined, Undefined]
    ensures data.Obj? ==> cs[0] == Lookup(data.props, "feature_importance")
    ensures data.Obj? ==> cs[1] == OptGet(Lookup(data.props, "data"), "feature_importance")
    ensures data.Obj? ==> cs[2] == OptGet(Lookup(data.props, "0"), "feature_importance")
    ensures data.Arr? ==> cs[0] == Undefined && cs[1] == Undefined
    ensures data.Arr? && |data.items| > 0 && data.items[0].Obj? ==>
              cs[2] == Lookup(data.items[0].props, "feature_importance")
    ensures data.Arr? && (|data.items| == 0 || !data.items[0].Obj?) ==> cs[2] == Undefined
  {
    [ OptGet(data, "feature_importance"),
      OptGet(OptGet(data, "data"), "feature_importance"),
      OptGet(OptIndexZero(data), "feature_importance") ]
  }

  /** `cs[0] || cs[1] || ... || null`: the first truthy operand, or `null`. */
  function FirstTruthy(cs: seq<Value>): (r: Value)
    ensures Truthy(r) <==> exists i :: 0 <= i < |cs| && Truthy(cs[i])
    ensures !Truthy(r) ==> r == Null
    ensures Truthy(r) ==> exists i :: 0 <= i < |cs| && r == cs[i] && forall j :: 0 <= j < i ==> !Truthy(cs[j])
    ensures forall i :: 0 <= i < |cs| && Truthy(cs[i]) && (forall j :: 0 <= j < i ==> !Truthy(cs[j]))
                        ==> r == cs[i]
  {
    if cs == [] then Null
    else if Truthy(cs[0]) then cs[0]
    else
      var r := FirstTruthy(cs[1..]);
      assert Truthy(r) ==> exists i :: 1 <= i < |cs| && r == cs[i] && forall j :: 0 <= j < i ==> !Truthy(cs[j]) by {
        if Truthy(r) {
          var k :| 0 <= k < |cs[1..]| && r == cs[1..][k] && forall j :: 0 <= j < k ==> !Truthy(cs[1..][j]);
          assert r == cs[k + 1];
          assert forall j :: 0 <= j < k + 1 ==> !Truthy(cs[j]) by {
            forall j | 0 <= j < k + 1 ensures !Truthy(cs[j]) {
              if j > 0 { assert cs[j] == cs[1..][j - 1]; }
            }
          }
        }
      }
      r
  }

  /** The first truthy of `cs` if it is an array or an object, else None. */
  function Choose(cs: seq<Value>): (r: Option<Value>)
    ensures r.Some? ==> r.value.Arr? || r.value.Obj?
    ensures r.Some? <==>
              exists i :: 0 <= i < |cs| && (cs[i].Arr? || cs[i].Obj?) && forall j :: 0 <= j < i ==> !Truthy(cs[j])
    ensures forall i :: 0 <= i < |cs| && Truthy(cs[i]) && (forall j :: 0 <= j < i ==> !Truthy(cs[j]))
                        ==> r == (if cs[i].Arr? || cs[i].Obj? then Some(cs[i]) else None)
  {
    var chosen := FirstTruthy(cs);
    if !Truthy(chosen) || !TypeofObject(chosen) then None else Some(chosen)
  }

  /** The scores found in a response body, or None when the chosen candidate
      is missing or is not of type object (the fetch then fails). */
  function Normalise(data: Value): (r: Option<Value>)
    ensures r.Some? ==> r.value.Arr? || r.value.Obj?
    ensures r.Some? <==>
              exists i :: 0 <= i < 3 && (Candidates(data)[i].Arr? || Candidates(data)[i].Obj?) &&
                          forall j :: 0 <= j < i ==> !Truthy(Candidates(data)[j])
    ensures forall i :: 0 <= i < 3 && Truthy(Candidates(data)[i]) && (forall j :: 0 <= j < i ==> !Truthy(Candidates(data)[j]))
                        ==> r == (if Candidates(data)[i].Arr? || Candidates(data)[i].Obj? then Some(Candidates(data)[i]) else None)
  {
    Choose(Candidates(data))
  }

  /** A truthy value of another type at an earlier place hides an object at a
      later one: the fetch fails. */
  lemma {:induction false} EarlierNonObjectShadows(data: Value, i: nat)
    requires i < 3 && Truthy(Candidates(data)[i]) && !Candidates(data)[i].Arr? && !Candidates(data)[i].Obj?
    requires forall j :: 0 <= j < i ==> !Truthy(Candidates(data)[j])
    ensures Normalise(data) == None
  {
  }

  /** A body that succeeds by the first place. */
  lemma NormaliseTopLevel(scores: seq<(string, Value)>)
    ensures Normalise(Obj([("feature_importance", Obj(scores))])) == Some(Obj(scores))
  {
    assert Truthy(Candidates(Obj([("feature_importance", Obj(scores))]))[0]);
  }

  /** A body that succeeds by the second place. */
  lemma NormaliseNested(scores: seq<(string, Value)>)
    ensures Normalise(Obj([("data", Obj([("feature_importance", Obj(scores))]))])) == Some(Obj(scores))
  {
    var cs := Candidates(Obj([("data", Obj([("feature_importance", Obj(scores))]))]));
    assert cs[0] == Undefined && cs[1] == Obj(scores);
  }

  /** A body that succeeds by the third place. */
  lemma NormaliseArrayWrapped(scores: seq<(string, Value)>)
    ensures Normalise(Arr([Obj([("feature_importance", Obj(scores))])])) == Some(Obj(scores))
  {
    var cs := Candidates(Arr([Obj([("feature_importance", Obj(scores))])]));
    assert cs[0] == Undefined && cs[1] == Undefined && cs[2] == Obj(scores);
  }

  /** The empty body fails, and so does a string at the first place that hides
      an object at the second. */
  lemma NormaliseFailures()
    ensures Normalise(Obj([])) == None
    ensures Normalise(Obj([("feature_importance", Str("n/a")), ("data", Obj([("feature_importance", Obj([]))]))])) == None
  {
    var cs := Candidates(Obj([]));
    assert cs[0] == Undefined && cs[1] == Undefined && cs[2] == Undefined;
    var ds := Candidates(Obj([("feature_importance", Str("n/a")), ("data", Obj([("feature_importance", Obj([]))]))]));
    assert ds[0] == Str("n/a");
  }

  // ---------------------------------------------------------------------------
  // Ranking the scores

  /** A feature name with its importance. */
  type Feature = (string, real)

  /** Non-increasing by importance. */
  ghost predicate SortedDesc(s: seq<Feature>) {
    forall i, j :: 0 <= i < j < |s| ==> s[i].1 >= s[j].1
  }

  /** The features of `s` whose importance is `v`, in the order of `s`. */
  function WithImportance(s: seq<Feature>, v: real): seq<Feature> {
    if s == [] then []
    else (if s[0].1 == v then [s[0]] else []) + WithImportance(s[1..], v)
  }

  /** A feature at least as important as the head of a non-increasing list
      can be put in front of it. */
  lemma PrependSorted(h: Feature, t: seq<Feature>)
    ensures SortedDesc(t) && (t != [] ==> t[0].1 <= h.1) ==> SortedDesc([h] + t)
  {
    if SortedDesc(t) && (t != [] ==> t[0].1 <= h.1) {
      forall i, j | 0 <= i < j < |[h] + t| ensures ([h] + t)[i].1 >= ([h] + t)[j].1 {
        if i == 0 && j > 1 {
          assert t[0].1 >= t[j - 1].1;
        }
      }
    }
  }

  /** Places `x` in front of the first feature that is not more important. */
  function Insert(x: Feature, s: seq<Feature>): (r: seq<Feature>)
    ensures |r| == |s| + 1
    ensures multiset(r) == multiset(s) + multiset{x}
    ensures r[0] == x || (s != [] && r[0] == s[0])
    ensures SortedDesc(s) ==> SortedDesc(r)
  {
    if s == [] || x.1 >= s[0].1 then
      PrependSorted(x, s);
      [x] + s
    else
      assert s == [s[0]] + s[1..];
      var t := Insert(x, s[1..]);
      assert SortedDesc(s) ==> SortedDesc(s[1..]);
      PrependSorted(s[0], t);
      [s[0]] + t
  }

  /** The order of `.sort((a, b) => b[1] - a[1])`, a stable sort: most
      important first, ties in their original order. */
  function SortDescending(es: seq<Feature>): (r: seq<Feature>)
    ensures multiset(r) == multiset(es)
    ensures SortedDesc(r)
  {
    if es == [] then []
    else
      assert es == [es[0]] + es[1..];
      Insert(es[0], SortDescending(es[1..]))
  }

  lemma {:induction false} WithImportanceCons(x: Feature, s: seq<Feature>, v: real)
    ensures WithImportance([x] + s, v) == Tie(x, v) + WithImportance(s, v)
  {
    assert ([x] + s)[1..] == s;
  }

  /** The features of `[x]` whose importance is `v`. */
  function Tie(x: Feature, v: real): seq<Feature> {
    if x.1 == v then [x] else []
  }

  /** Inserting `x` puts it before every feature of the same importance. */
  lemma {:induction false} InsertKeepsTies(x: Feature, s: seq<Feature>, v: real)
    ensures WithImportance(Insert(x, s), v) == WithImportance([x] + s, v)
  {
    if s != [] && x.1 < s[0].1 {
      var t := Insert(x, s[1..]);
      var rest := WithImportance(s[1..], v);
      assert Insert(x, s) == [s[0]] + t;
      assert s == [s[0]] + s[1..];
      calc {
        WithImportance(Insert(x, s), v);
        { WithImportanceCons(s[0], t, v); }
        Tie(s[0], v) + WithImportance(t, v);
        { InsertKeepsTies(x, s[1..], v); WithImportanceCons(x, s[1..], v); }
        Tie(s[0], v) + (Tie(x, v) + rest);
        { assert Tie(s[0], v) == [] || Tie(x, v) == []; }
        Tie(x, v) + (Tie(s[0], v) + rest);
        { WithImportanceCons(s[0], s[1..], v); }
        Tie(x, v) + WithImportance(s, v);
        { WithImportanceCons(x, s, v); }
        WithImportance([x] + s, v);
      }
    }
  }

  /** Stability: the features of any one importance keep their original order. */
  lemma {:induction false} SortKeepsTies(es: seq<Feature>, v: real)
    ensures WithImportance(SortDescending(es), v) == WithImportance(es, v)
  {
    if es != [] {
      SortKeepsTies(es[1..], v);
      InsertKeepsTies(es[0], SortDescending(es[1..]), v);
      WithImportanceCons(es[0], SortDescending(es[1..]), v);
      WithImportanceCons(es[0], es[1..], v);
      assert [es[0]] + es[1..] == es;
    }
  }

  lemma {:induction false} NoneAbove(s: seq<Feature>, v: real)
    requires forall i :: 0 <= i < |s| ==> s[i].1 < v
    ensures WithImportance(s, v) == []
  {
    if s != [] {
      NoneAbove(s[1..], v);
    }
  }

  lemma HeadHasTies(s: seq<Feature>)
    requires s != []
    ensures WithImportance(s, s[0].1) != []
  {
  }

  /** Sortedness and stability pin the order down: two non-increasing lists
      with the same features at every importance, in the same order, are equal. */
  lemma {:induction false} SortedTiesDetermine(a: seq<Feature>, b: seq<Feature>)
    requires SortedDesc(a) && SortedDesc(b)
    requires forall v :: WithImportance(a, v) == WithImportance(b, v)
    ensures a == b
  {
    if a == [] || b == [] {
      if a != [] {
        HeadHasTies(a);
        assert false;
      } else if b != [] {
        HeadHasTies(b);
        assert false;
      }
    } else {
      if a[0].1 > b[0].1 {
        NoneAbove(b, a[0].1);
        HeadHasTies(a);
        assert false;
      } else if b[0].1 > a[0].1 {
        NoneAbove(a, b[0].1);
        HeadHasTies(b);
        assert false;
      }
      var top := a[0].1;
      assert WithImportance(a, top)[0] == a[0];
      assert WithImportance(b, top)[0] == b[0];
      forall v ensures WithImportance(a[1..], v) == WithImportance(b[1..], v) {
        if v == top {
          assert WithImportance(a, v) == [a[0]] + WithImportance(a[1..], v);
          assert WithImportance(b, v) == [b[0]] + WithImportance(b[1..], v);
          assert ([a[0]] + WithImportance(a[1..], v))[1..] == WithImportance(a[1..], v);
          assert ([b[0]] + WithImportance(b[1..], v))[1..] == WithImportance(b[1..], v);
        } else {
          assert WithImportance(a, v) == WithImportance(a[1..], v);
          assert WithImportance(b, v) == WithImportance(b[1..], v);
        }
      }
      SortedTiesDetermine(a[1..], b[1..]);
      assert a == [a[0]] + a[1..];
      assert b == [b[0]] + b[1..];
    }
  }

  /** SortDescending is the one non-increasing, stable reordering of its input. */
  lemma SortDescendingUnique(es: seq<Feature>, r: seq<Feature>)
    requires SortedDesc(r)
    requires forall v :: WithImportance(r, v) == WithImportance(es, v)
    ensures r == SortDescending(es)
  {
    forall v ensures WithImportance(r, v) == WithImportance(SortDescending(es), v) {
      SortKeepsTies(es, v);
    }
    SortedTiesDetermine(r, SortDescending(es));
  }

  /** The entries of an object or array whose values are all numbers. */
  predicate NumericEntries(v: Value) {
    (v.Arr? || v.Obj?) && forall e :: e in Entries(v) ==> e.1.Num?
  }

  /** The entries as name and importance. */
  function Scores(es: seq<(string, Value)>): seq<Feature>
    requires forall e :: e in es ==> e.1.Num?
  {
    seq(|es|, i requires 0 <= i < |es| => (es[i].0, es[i].1.n))
  }

  /** `sortedFeatures`: no rows without data, otherwise every entry, most
      important first, ties in property order. */
  function SortedFeatures(featureData: Value): (r: seq<Feature>)
    requires featureData == Null || NumericEntries(featureData)
    ensures featureData == Null ==> r == []
    ensures featureData != Null ==> multiset(r) == multiset(Scores(Entries(featureData)))
    ensures SortedDesc(r)
    ensures featureData != Null ==>
              forall v :: WithImportance(r, v) == WithImportance(Scores(Entries(featureData)), v)
  {
    if featureData == Null then []
    else
      var es := Scores(Entries(featureData));
      assert forall v :: WithImportance(SortDescending(es), v) == WithImportance(es, v) by {
        forall v ensures WithImportance(SortDescending(es), v) == WithImportance(es, v) {
          SortKeepsTies(es, v);
        }
      }
      SortDescending(es)
  }

  /** The worked example: age (0.3) is ranked before height (0.1). */
  lemma SortedFeaturesExample()
    ensures SortedFeatures(Obj([("height", Num(0.1)), ("age", Num(0.3))])) == [("age", 0.3), ("height", 0.1)]
  {
  }

  // ---------------------------------------------------------------------------
  // Severity bands

  /** The bar colour: `bg-success`, `bg-warning` or `bg-danger`. */
  datatype BarColor = Success | Warning | Danger

  /** The colour of a feature's bar; the upper bound of each band is inclusive. */
  function ImportanceBand(importance: real): (r: BarColor)
    ensures r == Danger <==> importance > 0.15
    ensures r == Warning <==> 0.05 < importance <= 0.15
    ensures r == Success <==> importance <= 0.05
  {
    if importance > 0.15 then Danger
    else if importance > 0.05 then Warning
    else Success
  }

  function Severity(c: BarColor): nat {
    match c
    case Success => 0
    case Warning => 1
    case Danger => 2
  }

  /** A more important feature never gets a milder colour. */
  lemma BandMonotone(a: real, b: real)
    requires a <= b
    ensures Severity(ImportanceBand(a)) <= Severity(ImportanceBand(b))
  {
  }

  /** Down the ranked list the colours go from danger through warning to success. */
  lemma {:induction false} RankedBandsNonIncreasing(s: seq<Feature>)
    requires SortedDesc(s)
    ensures forall i, j :: 0 <= i < j < |s| ==> Severity(ImportanceBand(s[i].1)) >= Severity(ImportanceBand(s[j].1))
  {
    forall i, j | 0 <= i < j < |s|
      ensures Severity(ImportanceBand(s[i].1)) >= Severity(ImportanceBand(s[j].1))
    {
      BandMonotone(s[j].1, s[i].1);
    }
  }

  // ---------------------------------------------------------------------------
  // The fetch lifecycle

  /** The screen's state: `featureData`, `isLoading`, `error` and `hasFetched`. */
  class FeatureImportanceScreen {
    var featureData: Value
    var isLoading: bool
    var error: Option<string>
    var hasFetched: bool

    /** Before the first fetch nothing is shown; while loading neither data
        nor error is; after a fetch exactly one of them is. */
    ghost predicate Valid()
      reads this
    {
      && (featureData == Null || featureData.Arr? || featureData.Obj?)
      && (!hasFetched ==> !isLoading && error == None && featureData == Null)
      && (isLoading ==> error == None && featureData == Null)
      && (hasFetched && !isLoading ==> (error.Some? <==> featureData == Null))
    }

    /** The condition under which "No feature importance data found." is shown. */
    predicate NoDataNotice()
      reads this
    {
      hasFetched && !isLoading && error.None? && !Truthy(featureData)
    }

    lemma NoDataNoticeNeverShown()
      requires Valid()
      ensures !NoDataNotice()
    {
    }

    constructor ()
      ensures Valid()
      ensures featureData == Null && !isLoading && error == None && !hasFetched
    {
      featureData := Null;
      isLoading := false;
      error := None;
      hasFetched := false;
    }

    /** The start of `fetchFeatureImportance`; the button is disabled while loading. */
    method StartFetch()
      requires Valid() && !isLoading
      modifies this
      ensures Valid()
      ensures isLoading && hasFetched && error == None && featureData == Null
    {
      isLoading := true;
      error := None;
      featureData := Null;
      hasFetched := true;
    }

    /** The rest of `fetchFeatureImportance`, once the GET has settled. */
    method FinishFetch(outcome: AxiosOutcome)
      requires Valid() && isLoading
      modifies this
      ensures Valid()
      ensures !isLoading && hasFetched
      ensures outcome.Resolved? && Normalise(outcome.data).Some? ==>
                featureData == Normalise(outcome.data).value && error == None
      ensures outcome.Rejected? || Normalise(outcome.data).None? ==>
                featureData == Null && error == Some(LoadFailedMessage)
    {
      var found := if outcome.Resolved? then Normalise(outcome.data) else None;
      match found {
        case Some(scores) =>
          featureData := scores;
        case None =>
          error := Some(LoadFailedMessage);
      }
      isLoading := false;
    }
  }
}
