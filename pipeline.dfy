/**
 * `run_pipeline` (omnidoc/core/renderer.py:58-62): the text passes applied
 * one after the other, in list order.
 */
module Pipeline {
  /** A text-to-text pass. */
  type Step = string -> string

  /** The fold `run_pipeline` computes: the first step is applied first. */
  function RunPipeline(md: string, steps: seq<Step>): string
    decreases |steps|
  {
    if steps == [] then md else RunPipeline(steps[0](md), steps[1..])
  }

  /** The source's loop, reassigning `out` once per step. */
  method Run(md: string, steps: seq<Step>) returns (out: string)
    ensures out == RunPipeline(md, steps)
  {
    out := md;
    for i := 0 to |steps|
      invariant RunPipeline(out, steps[i..]) == RunPipeline(md, steps)
    {
      assert steps[i..][1..] == steps[i + 1..];
      out := steps[i](out);
    }
  }

  /** No steps: the text comes back unchanged. */
  lemma RunEmpty(md: string)
    ensures RunPipeline(md, []) == md
  {
  }

  /** One step: the pipeline is that step. */
  lemma RunSingle(md: string, f: Step)
    ensures RunPipeline(md, [f]) == f(md)
  {
    assert [f][1..] == [];
  }

  /** A step appended to the list runs after all the others. */
  lemma {:induction false} RunSnoc(md: string, steps: seq<Step>, f: Step)
    ensures RunPipeline(md, steps + [f]) == f(RunPipeline(md, steps))
    decreases |steps|
  {
    if steps == [] {
      RunSingle(md, f);
    } else {
      assert (steps + [f])[1..] == steps[1..] + [f];
      RunSnoc(steps[0](md), steps[1..], f);
    }
  }

  /** Running two lists back to back is running their concatenation. */
  lemma {:induction false} RunAppend(md: string, a: seq<Step>, b: seq<Step>)
    ensures RunPipeline(md, a + b) == RunPipeline(RunPipeline(md, a), b)
    decreases |a|
  {
    if a == [] {
      assert a + b == b;
    } else {
      assert (a + b)[1..] == a[1..] + b;
      RunAppend(a[0](md), a[1..], b);
    }
  }
}
