/**
 * The GNU backend of `src/gcc.cpp`: after the base generator's project, one
 * `cxx_compile` edge per source, from the source as written to the `.obj`
 * file beside it. The backend reports failure even when every edge is written.
 */
module Gcc {
  import opened Wrappers
  import opened Strings
  import opened Path
  import opened Statements
  import opened Bundles

  const CompileRule := "cxx_compile"
  const ObjectExtension := ".obj"

  /** The compile edge of one source: the raw source in, the `.obj` file out. */
  function GccEdge(source: string): Edge {
    Edge(CompileRule, [ReplaceExtension(source, ObjectExtension)], [], [source], [], [], [])
  }

  function GccEdges(srcs: seq<string>): (r: seq<Edge>)
    ensures |r| == |srcs|
  {
    seq(|srcs|, i requires 0 <= i < |srcs| => GccEdge(srcs[i]))
  }

  /** `gcc::generateProject`, given what the base generator's `generateProject`
    * did: its failure or exception ends the backend with nothing more written;
    * after success `at("sources")` throws for a project without sources, and
    * otherwise the edges are written and the result is `false`. */
  function GccRun(base: Run, p: Project): (r: Run)
    ensures r.status != Succeeded
    ensures base.status != Succeeded ==> r == base
    ensures base.lines <= r.lines
  {
    if base.status != Succeeded then base
    else if p.sources.None? then Run(base.lines, Threw)
    else Run(base.lines + Blocks(GccEdges(p.sources.value)), Failed)
  }

  /** The backend never succeeds. It adds nothing after a base that did not
    * succeed; otherwise, read back, it adds one `build` line per source, in
    * order: the object file, the rule, the source itself. */
  lemma GccOutcome(base: Run, p: Project)
    ensures GccRun(base, p).status != Succeeded
    ensures base.status != Succeeded ==> GccRun(base, p) == base
    ensures base.status == Succeeded && p.sources.None? ==> GccRun(base, p) == Run(base.lines, Threw)
    ensures base.status == Succeeded && p.sources.Some? && AllWords(p.sources.value) ==>
      var srcs := p.sources.value;
      var added := GccRun(base, p).lines[|base.lines|..];
      GccRun(base, p).status == Failed
      && GccRun(base, p).lines[..|base.lines|] == base.lines
      && |BuildLines(added)| == |srcs|
      && forall i :: 0 <= i < |srcs| ==>
           Tokens(BuildLines(added)[i]) == ["build", ReplaceExtension(srcs[i], ObjectExtension), ":", CompileRule, srcs[i]]
  {
    if base.status == Succeeded && p.sources.Some? && AllWords(p.sources.value) {
      var srcs := p.sources.value;
      var r := GccRun(base, p).lines;
      assert r == base.lines + Blocks(GccEdges(srcs));
      assert r[|base.lines|..] == Blocks(GccEdges(srcs));
      assert r[..|base.lines|] == base.lines;
      GccEdgesRead(srcs);
    }
  }

  /** What the base generator wrote stays at the head of the output, and the
    * backend never succeeds. */
  lemma GccKeepsBase(base: Run, p: Project)
    ensures GccRun(base, p).status != Succeeded
    ensures |GccRun(base, p).lines| >= |base.lines|
    ensures GccRun(base, p).lines[..|base.lines|] == base.lines
  {
  }

  lemma GccEdgesRead(srcs: seq<string>)
    requires AllWords(srcs)
    ensures |BuildLines(Blocks(GccEdges(srcs)))| == |srcs|
    ensures forall i :: 0 <= i < |srcs| ==>
      Tokens(BuildLines(Blocks(GccEdges(srcs)))[i]) == ["build", ReplaceExtension(srcs[i], ObjectExtension), ":", CompileRule, srcs[i]]
  {
    var es := GccEdges(srcs);
    forall i | 0 <= i < |es|
      ensures Wordy(es[i])
      ensures Reading(es[i]) == ["build", ReplaceExtension(srcs[i], ObjectExtension), ":", CompileRule, srcs[i]]
    {
      ReplaceExtensionSpaceFree(srcs[i], ObjectExtension);
      ReplaceExtensionShape(srcs[i], ObjectExtension);
    }
    ReadBlocks(es);
  }

  /** Writes one compile edge per source, in order. */
  method EmitGccEdges(b: Bundle, srcs: seq<string>)
    modifies b`output
    ensures b.output == old(b.output) + Blocks(GccEdges(srcs))
  {
    ghost var es := GccEdges(srcs);
    var i := 0;
    while i < |srcs|
      invariant 0 <= i <= |srcs|
      invariant b.output == old(b.output) + Blocks(es[..i])
    {
      var block := GccEdgeText(srcs[i]);
      assert block == Block(es[i]);
      b.Emit(block);
      BlocksSnoc(es, i);
      Associative(old(b.output), Blocks(es[..i]), block);
      i := i + 1;
    }
    assert es[..i] == es;
  }

  /** Builds the statement of one source's compile edge and gives its text. */
  method GccEdgeText(source: string) returns (block: seq<string>)
    ensures block == Block(GccEdge(source))
  {
    var s := new Statement(CompileRule);
    s.AppendInput(source);
    s.AppendOutput(ReplaceExtension(source, ObjectExtension));
    assert s.Value() == GccEdge(source);
    block := s.Text() + [""];
  }
}
