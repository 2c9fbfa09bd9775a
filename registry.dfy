/**
 * The feature registry (docnexus/features/registry.py): an ordered list of
 * text passes, each tagged standard or experimental, and the pipeline built
 * from it with or without the experimental ones.
 */
module Registry {
  import opened Pipeline

  datatype FeatureState = Standard | Experimental

  datatype Feature = Feature(name: string, handler: Step, state: FeatureState)

  /** The handlers `build_pipeline` keeps, in registration order. */
  function Selected(features: seq<Feature>, enableExperimental: bool): seq<Step>
    decreases |features|
  {
    if features == [] then []
    else
      var f := features[0];
      var keep := f.state == Standard || (enableExperimental && f.state == Experimental);
      (if keep then [f.handler] else []) + Selected(features[1..], enableExperimental)
  }

  /** The handlers of the features in `features` that are in state `s`, in order. */
  function HandlersIn(features: seq<Feature>, s: FeatureState): seq<Step>
    decreases |features|
  {
    if features == [] then []
    else (if features[0].state == s then [features[0].handler] else []) + HandlersIn(features[1..], s)
  }

  /** Every handler, in order. */
  function Handlers(features: seq<Feature>): (r: seq<Step>)
    ensures |r| == |features|
    ensures forall k :: 0 <= k < |features| ==> r[k] == features[k].handler
    decreases |features|
  {
    if features == [] then [] else [features[0].handler] + Handlers(features[1..])
  }

  /** `a` is `b` with some elements left out, the others kept in order. */
  ghost predicate IsSubseq(a: seq<Step>, b: seq<Step>)
    decreases |b|
  {
    if b == [] then a == []
    else (a != [] && a[0] == b[0] && IsSubseq(a[1..], b[1..])) || IsSubseq(a, b[1..])
  }

  /** The registry object: `register` appends, `build_pipeline` reads. */
  class FeatureManager {
    var features: seq<Feature>

    constructor ()
      ensures features == []
    {
      features := [];
    }

    /** Appends exactly one feature at the end; the earlier entries are untouched. */
    method Register(feature: Feature)
      modifies this
      ensures features == old(features) + [feature]
    {
      features := features + [feature];
    }

    /** The loop of `build_pipeline`; it changes nothing. */
    method BuildPipeline(enableExperimental: bool) returns (pipeline: seq<Step>)
      ensures pipeline == Selected(features, enableExperimental)
    {
      pipeline := [];
      for i := 0 to |features|
        invariant pipeline + Selected(features[i..], enableExperimental) == Selected(features, enableExperimental)
      {
        assert features[i..][1..] == features[i + 1..];
        var f := features[i];
        if f.state == Standard {
          pipeline := pipeline + [f.handler];
        } else if enableExperimental && f.state == Experimental {
          pipeline := pipeline + [f.handler];
        }
      }
    }
  }

  /** With experimental features off, the pipeline is exactly the standard handlers in registration order. */
  lemma {:induction false} StandardOnly(features: seq<Feature>)
    ensures Selected(features, false) == HandlersIn(features, Standard)
    decreases |features|
  {
    if features != [] {
      StandardOnly(features[1..]);
    }
  }

  /** With experimental features on, the pipeline is every registered handler in order. */
  lemma {:induction false} AllEnabled(features: seq<Feature>)
    ensures Selected(features, true) == Handlers(features)
    decreases |features|
  {
    if features != [] {
      AllEnabled(features[1..]);
      assert features[0].state == Standard || features[0].state == Experimental;
    }
  }

  /** The pipeline keeps registered handlers in order, leaving some out. */
  lemma {:induction false} SelectedSubseq(features: seq<Feature>, enableExperimental: bool)
    ensures IsSubseq(Selected(features, enableExperimental), Handlers(features))
    decreases |features|
  {
    if features != [] {
      SelectedSubseq(features[1..], enableExperimental);
      var rest := Selected(features[1..], enableExperimental);
      var hs := Handlers(features);
      assert hs == [features[0].handler] + Handlers(features[1..]);
      assert hs[1..] == Handlers(features[1..]);
      var f := features[0];
      if f.state == Standard || (enableExperimental && f.state == Experimental) {
        var sel := [f.handler] + rest;
        assert sel[1..] == rest;
      } else {
        assert Selected(features, enableExperimental) == rest;
      }
    }
  }

  /** The standard-only pipeline is a subsequence of the full one. */
  lemma StandardWithinAll(features: seq<Feature>)
    ensures IsSubseq(Selected(features, false), Selected(features, true))
  {
    AllEnabled(features);
    SelectedSubseq(features, false);
  }
}
