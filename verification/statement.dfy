/**
 * The build-edge accumulator of `src/Statement.cpp`: a rule name and the lists
 * an edge is made of, grown by append calls and serialised to build-file text.
 *
 * The serialiser writes, for an edge, the `build` line, one indented line per
 * variable binding and an empty line. Implicit outputs and order-only
 * dependencies have appenders in the callers but no definition beside the
 * others; they are kept as lists here and written in Ninja's syntax: implicit
 * outputs after the outputs as `| ` followed by each one and a space,
 * order-only dependencies after the dependencies as ` || ` followed by a space
 * and each one, mirroring how outputs and dependencies are written. When both
 * are empty the text is exactly the one the shown serialiser produces.
 */
module Statements {
  import opened Strings

  /** The value of a build edge. */
  datatype Edge = Edge(
    rule: string,
    outputs: seq<string>,
    implicitOutputs: seq<string>,
    inputs: seq<string>,
    dependencies: seq<string>,
    orderOnlyDependencies: seq<string>,
    variables: seq<string>)

  /** A fresh edge for `rule`: every list empty. */
  function NewEdge(rule: string): Edge {
    Edge(rule, [], [], [], [], [], [])
  }

  function ImplicitPart(e: Edge): string {
    if e.implicitOutputs == [] then "" else "| " + Spaced(e.implicitOutputs)
  }

  function DependencyPart(e: Edge): string {
    if e.dependencies == [] then "" else " | " + Prefixed(e.dependencies)
  }

  function OrderOnlyPart(e: Edge): string {
    if e.orderOnlyDependencies == [] then "" else " || " + Prefixed(e.orderOnlyDependencies)
  }

  /** The `build` line of an edge. */
  function EdgeLine(e: Edge): string {
    "build " + Spaced(e.outputs) + ImplicitPart(e) + ": " + e.rule + " "
    + Spaced(e.inputs) + DependencyPart(e) + OrderOnlyPart(e)
  }

  /** Variable bindings, one per line, each indented by four spaces. */
  function Indented(vars: seq<string>): (r: seq<string>)
    ensures |r| == |vars|
    ensures forall i :: 0 <= i < |vars| ==> r[i] == "    " + vars[i]
  {
    if vars == [] then [] else ["    " + vars[0]] + Indented(vars[1..])
  }

  /** The serialised text of an edge, as lines. */
  function Render(e: Edge): seq<string> {
    [EdgeLine(e)] + Indented(e.variables) + [""]
  }

  /** The edge followed by the blank line of a trailing `endl`: what `os << stmt << endl` writes. */
  function Block(e: Edge): seq<string> {
    Render(e) + [""]
  }

  /** Edges written one after the other, each followed by an empty line. */
  function Blocks(es: seq<Edge>): seq<string> {
    if es == [] then [] else Blocks(es[..|es| - 1]) + Block(es[|es| - 1])
  }

  /** Edges written one after the other, each between empty lines: `os << endl << stmt << endl`. */
  function FramedBlocks(es: seq<Edge>): seq<string> {
    if es == [] then [] else FramedBlocks(es[..|es| - 1]) + ([""] + Render(es[|es| - 1]) + [""])
  }

  lemma BlocksSnoc(es: seq<Edge>, i: nat)
    requires i < |es|
    ensures Blocks(es[..i + 1]) == Blocks(es[..i]) + Block(es[i])
    ensures FramedBlocks(es[..i + 1]) == FramedBlocks(es[..i]) + ([""] + Render(es[i]) + [""])
  {
    assert es[..i + 1][..i] == es[..i];
  }

  /** The `build` lines of a text, in order: what a reader finds as edges. */
  function BuildLines(lines: seq<string>): seq<string> {
    if lines == [] then []
    else BuildLines(lines[..|lines| - 1]) + (if StartsWith(lines[|lines| - 1], "build ") then [lines[|lines| - 1]] else [])
  }

  /** The `build` line of each edge, in order. */
  function EdgeLines(es: seq<Edge>): seq<string> {
    seq(|es|, i requires 0 <= i < |es| => EdgeLine(es[i]))
  }

  lemma EdgeLinesSnoc(es: seq<Edge>)
    requires es != []
    ensures EdgeLines(es) == EdgeLines(es[..|es| - 1]) + [EdgeLine(es[|es| - 1])]
  {
  }

  lemma {:induction false} BuildLinesAppend(a: seq<string>, b: seq<string>)
    ensures BuildLines(a + b) == BuildLines(a) + BuildLines(b)
    decreases |b|
  {
    if b == [] {
      assert a + b == a;
    } else {
      var n := |b| - 1;
      assert (a + b)[..|a + b| - 1] == a + b[..n];
      BuildLinesAppend(a, b[..n]);
    }
  }

  /** The only `build` line of an edge's text is its edge line. */
  lemma BuildLinesOfRender(e: Edge)
    ensures BuildLines(Render(e)) == [EdgeLine(e)]
  {
    EdgeLineStarts(e);
    BuildLinesOfLayout(EdgeLine(e), e.variables);
  }

  lemma EdgeLineStarts(e: Edge)
    ensures StartsWith(EdgeLine(e), "build ")
  {
  }

  /** A line read as `build` followed by indented lines and an empty one. */
  lemma BuildLinesOfLayout(line: string, vars: seq<string>)
    requires StartsWith(line, "build ")
    ensures BuildLines([line] + Indented(vars) + [""]) == [line]
  {
    BuildLinesAppend([line] + Indented(vars), [""]);
    BuildLinesAppend([line], Indented(vars));
    IndentedHasNoBuild(vars);
    assert BuildLines([line]) == BuildLines([]) + [line];
    assert BuildLines([""]) == BuildLines([]) + [];
  }

  lemma {:induction false} IndentedHasNoBuild(vars: seq<string>)
    ensures BuildLines(Indented(vars)) == []
    decreases |vars|
  {
    if vars != [] {
      var line := "    " + vars[0];
      assert line[0] == ' ';
      assert BuildLines([line]) == BuildLines([]) + [];
      BuildLinesAppend([line], Indented(vars[1..]));
      IndentedHasNoBuild(vars[1..]);
    }
  }

  /** Reading the `build` lines of written edges gives back one line per edge, in order. */
  lemma {:induction false} BuildLinesOfBlocks(es: seq<Edge>)
    ensures BuildLines(Blocks(es)) == EdgeLines(es)
  {
    if es != [] {
      var n := |es| - 1;
      BuildLinesOfBlocks(es[..n]);
      EdgeLinesSnoc(es);
      BuildLinesOfBlock(es[n]);
      BuildLinesAppend(Blocks(es[..n]), Block(es[n]));
    }
  }

  /** The same for edges written between empty lines. */
  lemma {:induction false} BuildLinesOfFramedBlocks(es: seq<Edge>)
    ensures BuildLines(FramedBlocks(es)) == EdgeLines(es)
  {
    if es != [] {
      var n := |es| - 1;
      BuildLinesOfFramedBlocks(es[..n]);
      EdgeLinesSnoc(es);
      BuildLinesOfBlock(es[n]);
      BuildLinesAppend(FramedBlocks(es[..n]), [""] + Render(es[n]) + [""]);
    }
  }

  /** An edge's text with an empty line after it, or one on each side, has its edge line as only `build` line. */
  lemma BuildLinesOfBlock(e: Edge)
    ensures BuildLines(Block(e)) == [EdgeLine(e)]
    ensures BuildLines([""] + Render(e) + [""]) == [EdgeLine(e)]
  {
    var r := Render(e);
    BuildLinesOfRender(e);
    EmptyLinesAround(r);
  }

  /** Empty lines add no `build` line. */
  lemma EmptyLinesAround(r: seq<string>)
    ensures BuildLines(r + [""]) == BuildLines(r)
    ensures BuildLines([""] + r + [""]) == BuildLines(r)
  {
    assert BuildLines([""]) == BuildLines([]) + [];
    BuildLinesAppend(r, [""]);
    BuildLinesAppend([""] + r, [""]);
    BuildLinesAppend([""], r);
  }


  /** Layout of the serialised text: the `build` line, then each variable in
    * insertion order indented by four spaces, then one empty line. */
  lemma RenderLayout(e: Edge)
    ensures |Render(e)| == |e.variables| + 2
    ensures StartsWith(Render(e)[0], "build ")
    ensures forall i :: 0 <= i < |e.variables| ==> Render(e)[i + 1] == "    " + e.variables[i]
    ensures Render(e)[|Render(e)| - 1] == ""
  {
  }

  /** The dependency separator ` | ` is written exactly when there are dependencies;
    * then every dependency is preceded by one space. */
  lemma DependencySeparator(e: Edge)
    ensures e.dependencies == [] <==> DependencyPart(e) == ""
    ensures e.dependencies != [] ==> DependencyPart(e) == " | " + Prefixed(e.dependencies)
  {
  }

  /** Every atom of an edge is a word (non-empty, space-free), as build paths are. */
  predicate Wordy(e: Edge) {
    IsWord(e.rule) && AllWords(e.outputs) && AllWords(e.implicitOutputs) && AllWords(e.inputs)
    && AllWords(e.dependencies) && AllWords(e.orderOnlyDependencies)
  }

  /** What a Ninja lexer reads from a `build` line. */
  function Reading(e: Edge): seq<string> {
    ["build"] + e.outputs + Marked("|", e.implicitOutputs) + [":", e.rule] + e.inputs
    + Marked("|", e.dependencies) + Marked("||", e.orderOnlyDependencies)
  }

  /** An optional list introduced by its separator word; nothing when empty. */
  function Marked(sep: string, xs: seq<string>): seq<string> {
    if xs == [] then [] else [sep] + xs
  }

  /** ` sep ` followed by a space-led list of words reads as `sep`, then the words. */
  lemma TailReads(sep: string, xs: seq<string>)
    requires IsWord(sep) && AllWords(xs)
    ensures Tokens(" " + sep + " " + Prefixed(xs)) == [sep] + xs
  {
    TokensOfPrefixed(xs);
    TokensOfWord(sep);
    assert " " + sep + " " + Prefixed(xs) == " " + (sep + " " + Prefixed(xs));
    TokensLeadingSpace(sep + " " + Prefixed(xs));
    TokensSeparated(sep, Prefixed(xs));
  }

  lemma ImplicitPartReads(e: Edge)
    requires AllWords(e.implicitOutputs)
    ensures Tokens(ImplicitPart(e)) == Marked("|", e.implicitOutputs)
    ensures ImplicitPart(e) == [] || ImplicitPart(e)[|ImplicitPart(e)| - 1] == ' '
  {
    if e.implicitOutputs != [] {
      SpacedEnds(e.implicitOutputs);
      TokensOfSpaced(e.implicitOutputs);
      TokensOfWord("|");
      assert ImplicitPart(e) == "|" + " " + Spaced(e.implicitOutputs);
      TokensSeparated("|", Spaced(e.implicitOutputs));
    }
  }

  lemma DependencyPartReads(e: Edge)
    requires AllWords(e.dependencies)
    ensures Tokens(DependencyPart(e)) == Marked("|", e.dependencies)
    ensures DependencyPart(e) == [] || DependencyPart(e)[0] == ' '
  {
    if e.dependencies != [] {
      assert DependencyPart(e) == " " + "|" + " " + Prefixed(e.dependencies);
      TailReads("|", e.dependencies);
    }
  }

  lemma OrderOnlyPartReads(e: Edge)
    requires AllWords(e.orderOnlyDependencies)
    ensures Tokens(OrderOnlyPart(e)) == Marked("||", e.orderOnlyDependencies)
    ensures OrderOnlyPart(e) == [] || OrderOnlyPart(e)[0] == ' '
  {
    if e.orderOnlyDependencies != [] {
      assert OrderOnlyPart(e) == " " + "||" + " " + Prefixed(e.orderOnlyDependencies);
      TailReads("||", e.orderOnlyDependencies);
    }
  }

  /** The words of `build <outs><imp>: `, given those of its pieces. */
  lemma HeadReads(outs: string, imp: string)
    requires outs == [] || outs[|outs| - 1] == ' '
    requires imp == [] || imp[|imp| - 1] == ' '
    ensures Tokens("build " + outs + imp + ": ") == ["build"] + Tokens(outs) + Tokens(imp) + [":"]
  {
    WordThenSpace("build");
    assert "build" + " " == "build ";
    WordThenSpace(":");
    assert ":" + " " == ": ";
    JoinAfterSpaces("build ", outs, imp, ": ");
  }

  /** A word followed by a space reads as the word. */
  lemma WordThenSpace(w: string)
    requires IsWord(w)
    ensures Tokens(w + " ") == [w]
  {
    TokensOfWord(w);
    TokensSeparated(w, "");
    assert w + " " + "" == w + " ";
  }

  /** Pieces that each end in a space (or are empty) read as their words in turn. */
  lemma JoinAfterSpaces(a: string, x: string, y: string, c: string)
    requires a != [] && a[|a| - 1] == ' '
    requires x == [] || x[|x| - 1] == ' '
    requires y == [] || y[|y| - 1] == ' '
    ensures Tokens(a + x + y + c) == Tokens(a) + Tokens(x) + Tokens(y) + Tokens(c)
  {
    var ax := a + x;
    TokensJoin(a, x);
    assert ax[|ax| - 1] == ' ';
    var axy := ax + y;
    TokensJoin(ax, y);
    assert axy[|axy| - 1] == ' ';
    TokensJoin(axy, c);
  }


  /** The words of `<head><rule> <ins><deps><oo>`, given those of its pieces. */
  lemma {:induction false} BodyReads(head: string, rule: string, ins: string, deps: string, oo: string)
    requires head != [] && head[|head| - 1] == ' '
    requires IsWord(rule)
    requires deps == [] || deps[0] == ' '
    requires oo == [] || oo[0] == ' '
    ensures Tokens(head + rule + " " + ins + deps + oo)
         == Tokens(head) + [rule] + Tokens(ins) + Tokens(deps) + Tokens(oo)
  {
    TokensOfWord(rule);
    var p4 := head + rule;
    TokensJoin(head, rule);
    var p5 := p4 + " ";
    TokensSeparated(p4, "");
    assert p5 == p4 + " " + "";
    assert Tokens(p5) == Tokens(head) + [rule];
    var p6 := p5 + ins;
    TokensJoin(p5, ins);
    var p7 := p6 + deps;
    TokensJoin(p6, deps);
    assert Tokens(p7) == Tokens(head) + [rule] + Tokens(ins) + Tokens(deps);
    TokensJoin(p7, oo);
  }

  /** Reading the `build` line back, word by word, gives `build`, the outputs, the
    * implicit outputs after `|`, `:`, the rule, the inputs, the dependencies after
    * `|` and the order-only dependencies after `||`: no path is lost, merged or
    * moved to another list. */
  lemma {:induction false} EdgeLineReadsBack(e: Edge)
    requires Wordy(e)
    ensures Tokens(EdgeLine(e)) == Reading(e)
  {
    var outs, imp, ins := Spaced(e.outputs), ImplicitPart(e), Spaced(e.inputs);
    var deps, oo := DependencyPart(e), OrderOnlyPart(e);
    SpacedEnds(e.outputs);
    ImplicitPartReads(e);
    DependencyPartReads(e);
    OrderOnlyPartReads(e);
    var head := "build " + outs + imp + ": ";
    HeadReads(outs, imp);
    BodyReads(head, e.rule, ins, deps, oo);
    assert EdgeLine(e) == head + e.rule + " " + ins + deps + oo;
    assert Tokens(EdgeLine(e)) == Tokens(head) + [e.rule] + Tokens(ins) + Tokens(deps) + Tokens(oo);
    TokensOfSpaced(e.outputs);
    TokensOfSpaced(e.inputs);
    var a := ["build"] + e.outputs + Marked("|", e.implicitOutputs);
    assert Tokens(head) == a + [":"];
    assert a + [":"] + [e.rule] == a + [":", e.rule];
  }

  /** A reader of written edges finds one `build` line per edge, in order, and
    * splits each back into the edge's words. */
  lemma ReadBlocks(es: seq<Edge>)
    requires forall i :: 0 <= i < |es| ==> Wordy(es[i])
    ensures |BuildLines(Blocks(es))| == |es| && |BuildLines(FramedBlocks(es))| == |es|
    ensures forall i :: 0 <= i < |es| ==> Tokens(BuildLines(Blocks(es))[i]) == Reading(es[i])
    ensures forall i :: 0 <= i < |es| ==> Tokens(BuildLines(FramedBlocks(es))[i]) == Reading(es[i])
  {
    BuildLinesOfBlocks(es);
    BuildLinesOfFramedBlocks(es);
    forall i | 0 <= i < |es|
      ensures Tokens(EdgeLines(es)[i]) == Reading(es[i])
    {
      EdgeLineReadsBack(es[i]);
    }
  }

  /** A block holding one edge of words has one `build` line, which reads as the edge. */
  lemma SingleEdgeReads(e: Edge)
    requires Wordy(e)
    ensures BuildLines(Block(e)) == [EdgeLine(e)]
    ensures Tokens(EdgeLine(e)) == Reading(e)
  {
    BuildLinesOfBlock(e);
    EdgeLineReadsBack(e);
  }

  /** The mutable accumulator: `Statement` with its member lists. */
  class Statement {
    var rule: string
    var inputs: seq<string>
    var outputs: seq<string>
    var implicitOutputs: seq<string>
    var dependencies: seq<string>
    var orderOnlyDependencies: seq<string>
    var variables: seq<string>

    /** The edge this statement currently describes. */
    function Value(): Edge
      reads this
    {
      Edge(rule, outputs, implicitOutputs, inputs, dependencies, orderOnlyDependencies, variables)
    }

    /** The serialised text; a function of the fields alone, so equal statements
      * always serialise identically. */
    function Text(): seq<string>
      reads this
    {
      Render(Value())
    }

    /** A statement for `rule` (possibly empty) with every list empty. */
    constructor (rule: string)
      ensures Value() == NewEdge(rule)
    {
      this.rule := rule;
      inputs, outputs, implicitOutputs := [], [], [];
      dependencies, orderOnlyDependencies, variables := [], [], [];
    }

    method AppendInput(input: string)
      modifies this
      ensures Value() == old(Value()).(inputs := old(inputs) + [input])
    {
      inputs := inputs + [input];
    }

    method AppendInputs(xs: seq<string>)
      modifies this
      ensures Value() == old(Value()).(inputs := old(inputs) + xs)
    {
      inputs := inputs + xs;
    }

    method AppendOutput(output: string)
      modifies this
      ensures Value() == old(Value()).(outputs := old(outputs) + [output])
    {
      outputs := outputs + [output];
    }

    method AppendOutputs(xs: seq<string>)
      modifies this
      ensures Value() == old(Value()).(outputs := old(outputs) + xs)
    {
      outputs := outputs + xs;
    }

    method AppendImplicitOutputs(xs: seq<string>)
      modifies this
      ensures Value() == old(Value()).(implicitOutputs := old(implicitOutputs) + xs)
    {
      implicitOutputs := implicitOutputs + xs;
    }

    method AppendDependency(dep: string)
      modifies this
      ensures Value() == old(Value()).(dependencies := old(dependencies) + [dep])
    {
      dependencies := dependencies + [dep];
    }

    method AppendDependencies(xs: seq<string>)
      modifies this
      ensures Value() == old(Value()).(dependencies := old(dependencies) + xs)
    {
      dependencies := dependencies + xs;
    }

    method AppendOrderOnlyDependencies(xs: seq<string>)
      modifies this
      ensures Value() == old(Value()).(orderOnlyDependencies := old(orderOnlyDependencies) + xs)
    {
      orderOnlyDependencies := orderOnlyDependencies + xs;
    }

    /** Adds the line `name = value`; a repeated name is a further line, not a replacement. */
    method AppendVariable(name: string, value: string)
      modifies this
      ensures Value() == old(Value()).(variables := old(variables) + [name + " = " + value])
    {
      variables := variables + [name + " = " + value];
    }
  }
}
