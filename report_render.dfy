/**
 * The iText report renderer (ItextReportRenderer): it opens a document,
 * writes either a composite report (its title, its filter description,
 * then each child element) or one single element, and closes the
 * document. Each element goes to the renderer chosen by its kind; kinds
 * with no renderer go to a null renderer that writes nothing. Any
 * exception aborts the whole render, before the document is closed.
 *
 * The document is modelled by the sequence of events written into it.
 * Which writes raise an exception is a parameter, `fails`; a render
 * performs the writes of its trace in order and stops at the first one
 * that raises.
 */
module ItextRender {

  datatype Element =
    | Report(title: string, filterDescriptions: seq<string>, elements: seq<Element>)
    | PivotTable(content: string)
    | PivotChart(content: string)
    | MapElement(content: string)
    | Table(content: string)
    | Other(content: string)

  datatype Renderer = PivotTableRenderer | ChartRenderer | MapRenderer | TableRenderer | NullRenderer

  datatype Event =
    | Open
    | Title(title: string)
    | FilterDescription(descriptions: seq<string>)
    | RenderWith(renderer: Renderer, element: Element)
    | Close

  /** How a call to `render` ends: normally, or with a RuntimeException. */
  datatype Outcome = Completed | Aborted

  /**
   * The renderer for an element: the pivot-table, chart, map and table
   * renderers for the four element kinds they draw, the null renderer for
   * every other kind, a nested report included.
   */
  function RendererFor(e: Element): (r: Renderer)
    ensures r == PivotTableRenderer <==> e.PivotTable?
    ensures r == ChartRenderer <==> e.PivotChart?
    ensures r == MapRenderer <==> e.MapElement?
    ensures r == TableRenderer <==> e.Table?
    ensures r == NullRenderer <==> e.Report? || e.Other?
  {
    if e.PivotTable? then PivotTableRenderer
    else if e.PivotChart? then ChartRenderer
    else if e.MapElement? then MapRenderer
    else if e.Table? then TableRenderer
    else NullRenderer
  }

  /** The events one element adds to the document: none for the null renderer. */
  function Contribution(e: Element): seq<Event> {
    var r := RendererFor(e);
    if r == NullRenderer then [] else [RenderWith(r, e)]
  }

  /** The events the elements of a report add, in list order. */
  function ElementsTrace(es: seq<Element>): seq<Event> {
    if es == [] then [] else Contribution(es[0]) + ElementsTrace(es[1..])
  }

  /** What goes between open and close: a report's title, filter and children, or one element. */
  function BodyTrace(root: Element): seq<Event> {
    if root.Report? then [Title(root.title), FilterDescription(root.filterDescriptions)] + ElementsTrace(root.elements)
    else Contribution(root)
  }

  /** Every event of a render that raises nothing. */
  function FullTrace(root: Element): seq<Event> {
    [Open] + BodyTrace(root) + [Close]
  }

  /**
   * The writes of `t` that happen when a write raises exactly where
   * `fails` says: the longest prefix of `t` none of whose writes fails,
   * cut just before the first write that does.
   */
  function Executed(t: seq<Event>, fails: Event -> bool): seq<Event> {
    if t == [] || fails(t[0]) then [] else [t[0]] + Executed(t[1..], fails)
  }

  /** The executed writes are never more than the trace, and all of it exactly when as many. */
  lemma {:induction false} ExecutedLength(t: seq<Event>, fails: Event -> bool)
    ensures |Executed(t, fails)| <= |t|
    ensures Executed(t, fails) == t <==> |Executed(t, fails)| == |t|
  {
    if t != [] && !fails(t[0]) {
      ExecutedLength(t[1..], fails);
    }
  }

  /**
   * The executed writes are a prefix of the trace, none of them raises,
   * and when they stop short the next write is one that raises.
   */
  lemma {:induction false} ExecutedIsPassingPrefix(t: seq<Event>, fails: Event -> bool)
    ensures Executed(t, fails) <= t
    ensures forall e :: e in Executed(t, fails) ==> !fails(e)
    ensures |Executed(t, fails)| < |t| ==> fails(t[|Executed(t, fails)|])
  {
    if t != [] && !fails(t[0]) {
      ExecutedIsPassingPrefix(t[1..], fails);
    }
  }

  // ---------------------------------------------------------------- lemmas

  lemma {:induction false} ElementsTraceAppend(a: seq<Element>, b: seq<Element>)
    ensures ElementsTrace(a + b) == ElementsTrace(a) + ElementsTrace(b)
  {
    if a == [] {
      assert a + b == b;
    } else {
      assert (a + b)[0] == a[0];
      assert (a + b)[1..] == a[1..] + b;
      ElementsTraceAppend(a[1..], b);
    }
  }

  /** Running two traces in a row: the second runs only if the first ran to its end. */
  lemma {:induction false} ExecutedAppend(a: seq<Event>, b: seq<Event>, fails: Event -> bool)
    ensures Executed(a + b, fails) == if Executed(a, fails) == a then a + Executed(b, fails) else Executed(a, fails)
  {
    if a == [] {
      assert a + b == b;
    } else {
      assert (a + b)[0] == a[0];
      if !fails(a[0]) {
        assert (a + b)[1..] == a[1..] + b;
        ExecutedAppend(a[1..], b, fails);
      }
    }
  }

  /** The children's events are renders, by a real renderer, of children of the report. */
  lemma {:induction false} ElementsTraceRendersOnly(es: seq<Element>)
    ensures forall ev :: ev in ElementsTrace(es) ==>
              ev.RenderWith? && ev.renderer != NullRenderer && ev.element in es
  {
    if es != [] {
      ElementsTraceRendersOnly(es[1..]);
    }
  }

  /**
   * Children that all have a renderer are rendered once each, in list
   * order, each by the renderer of its kind.
   */
  lemma {:induction false} ChildrenRenderedInOrder(es: seq<Element>)
    requires forall i :: 0 <= i < |es| ==> RendererFor(es[i]) != NullRenderer
    ensures |ElementsTrace(es)| == |es|
    ensures forall i :: 0 <= i < |es| ==> ElementsTrace(es)[i] == RenderWith(RendererFor(es[i]), es[i])
  {
    if es != [] {
      ChildrenRenderedInOrder(es[1..]);
    }
  }

  /**
   * A child without a renderer adds nothing: the report's events are
   * those of the same report without that child, so its siblings still
   * render, in order.
   */
  lemma UnknownChildSkipped(es: seq<Element>, i: nat)
    requires i < |es| && RendererFor(es[i]) == NullRenderer
    ensures ElementsTrace(es) == ElementsTrace(es[..i] + es[i + 1..])
  {
    var before, after := ElementsTrace(es[..i]), ElementsTrace(es[i + 1..]);
    SplitAt(es, i);
    assert Contribution(es[i]) + after == after;
    ElementsTraceAppend(es[..i], es[i + 1..]);
  }

  /** A report's events: open, title, filter description, the children's renders, close. */
  lemma ReportTrace(title: string, filters: seq<string>, children: seq<Element>)
    ensures FullTrace(Report(title, filters, children))
         == [Open, Title(title), FilterDescription(filters)] + ElementsTrace(children) + [Close]
    ensures children == [] ==>
              FullTrace(Report(title, filters, children)) == [Open, Title(title), FilterDescription(filters), Close]
  {
  }

  /** Any other root is rendered once, by its own renderer, with no title and no filter description. */
  lemma SingleElementTrace(root: Element)
    requires !root.Report?
    ensures FullTrace(root) == [Open] + Contribution(root) + [Close]
    ensures forall ev :: ev in FullTrace(root) ==> !ev.Title? && !ev.FilterDescription?
    ensures RendererFor(root) != NullRenderer ==> FullTrace(root) == [Open, RenderWith(RendererFor(root), root), Close]
  {
  }

  /**
   * A complete render starts with open, ends with close, and opens and
   * closes nowhere else, so every title, filter and render is in between.
   */
  lemma TraceBracketed(root: Element)
    ensures var t := FullTrace(root);
            && |t| >= 2 && t[0] == Open && t[|t| - 1] == Close
            && Open !in t[1..] && Close !in t[..|t| - 1]
  {
    var t := FullTrace(root);
    ElementsTraceRendersOnly(if root.Report? then root.elements else []);
    assert t[1..] == BodyTrace(root) + [Close];
    assert t[..|t| - 1] == [Open] + BodyTrace(root);
  }

  /** A render that raises anywhere never reaches close. */
  lemma AbortSkipsClose(root: Element, fails: Event -> bool)
    requires Executed(FullTrace(root), fails) != FullTrace(root)
    ensures Close !in Executed(FullTrace(root), fails)
  {
    var t, p := FullTrace(root), Executed(FullTrace(root), fails);
    TraceBracketed(root);
    ExecutedIsPassingPrefix(t, fails);
    assert |p| < |t|;
    assert p == t[..|p|];
    assert p <= t[..|t| - 1];
  }

  // ---------------------------------------------------------------- document

  class Document {
    var events: seq<Event>

    constructor ()
      ensures events == []
    {
      events := [];
    }

    /** Writes one event, or raises (`ok` false) and writes nothing. */
    method Write(e: Event, fails: Event -> bool) returns (ok: bool)
      modifies this
      ensures ok == !fails(e)
      ensures events == if ok then old(events) + [e] else old(events)
    {
      ok := !fails(e);
      if ok {
        events := events + [e];
      }
    }
  }

  /** The chosen renderer draws the element; the null renderer draws nothing and never raises. */
  method RunRenderer(r: Renderer, doc: Document, e: Element, fails: Event -> bool) returns (ok: bool)
    modifies doc
    ensures r == NullRenderer ==> ok && doc.events == old(doc.events)
    ensures r != NullRenderer ==> ok == !fails(RenderWith(r, e))
    ensures r != NullRenderer ==> doc.events == if ok then old(doc.events) + [RenderWith(r, e)] else old(doc.events)
  {
    if r == NullRenderer {
      ok := true;
    } else {
      ok := doc.Write(RenderWith(r, e), fails);
    }
  }

  method RenderElement(doc: Document, e: Element, fails: Event -> bool) returns (ok: bool)
    modifies doc
    ensures doc.events == old(doc.events) + Executed(Contribution(e), fails)
    ensures ok <==> Executed(Contribution(e), fails) == Contribution(e)
  {
    ok := RunRenderer(RendererFor(e), doc, e, fails);
  }

  /** Running a trace after a prefix that raises nothing. */
  lemma AfterPassingPrefix(head: seq<Event>, t: seq<Event>, fails: Event -> bool)
    requires forall e :: e in head ==> !fails(e)
    ensures Executed(head + t, fails) == head + Executed(t, fails)
  {
    ExecutedPasses(head, fails);
    ExecutedAppend(head, t, fails);
  }

  lemma {:induction false} ExecutedPasses(t: seq<Event>, fails: Event -> bool)
    requires forall e :: e in t ==> !fails(e)
    ensures Executed(t, fails) == t
  {
    if t != [] {
      assert t[0] in t;
      assert forall e :: e in t[1..] ==> e in t;
      ExecutedPasses(t[1..], fails);
    }
  }

  /** The events of the first `i + 1` children extend those of the first `i` by child `i`'s. */
  lemma ChildPrefix(children: seq<Element>, i: nat)
    requires i < |children|
    ensures ElementsTrace(children[..i + 1]) == ElementsTrace(children[..i]) + Contribution(children[i])
  {
    var c := children[i];
    assert children[..i + 1] == children[..i] + [c];
    ElementsTraceAppend(children[..i], [c]);
    assert [c][1..] == [];
  }

  /** Running `a`, then `c`, once `a` has run to its end and `c` runs to its end. */
  lemma RunStep(a: seq<Event>, c: seq<Event>, fails: Event -> bool)
    requires Executed(a, fails) == a && Executed(c, fails) == c
    ensures Executed(a + c, fails) == a + c
  {
    ExecutedAppend(a, c, fails);
  }

  /** Once the children before `i` have run, child `i` running to its end extends that. */
  lemma ChildRuns(children: seq<Element>, i: nat, fails: Event -> bool)
    requires i < |children|
    requires Executed(ElementsTrace(children[..i]), fails) == ElementsTrace(children[..i])
    requires Executed(Contribution(children[i]), fails) == Contribution(children[i])
    ensures ElementsTrace(children[..i + 1]) == ElementsTrace(children[..i]) + Contribution(children[i])
    ensures Executed(ElementsTrace(children[..i + 1]), fails) == ElementsTrace(children[..i + 1])
  {
    ChildPrefix(children, i);
    RunStep(ElementsTrace(children[..i]), Contribution(children[i]), fails);
  }

  /** The children's events split around child `i`. */
  lemma SplitAt(es: seq<Element>, i: nat)
    requires i < |es|
    ensures ElementsTrace(es) == ElementsTrace(es[..i]) + (Contribution(es[i]) + ElementsTrace(es[i + 1..]))
  {
    var tail := es[i..];
    assert es == es[..i] + tail;
    ElementsTraceAppend(es[..i], tail);
    assert tail[0] == es[i] && tail[1..] == es[i + 1..];
  }

  /** Running `a`, then `c` which raises: `rest` never runs and the whole run stops short. */
  lemma FailStep(a: seq<Event>, c: seq<Event>, rest: seq<Event>, fails: Event -> bool)
    requires Executed(a, fails) == a
    requires Executed(c, fails) != c
    ensures Executed(a + (c + rest), fails) == a + Executed(c, fails)
    ensures Executed(a + (c + rest), fails) != a + (c + rest)
  {
    ExecutedAppend(a, c + rest, fails);
    ExecutedAppend(c, rest, fails);
    ExecutedLength(c, fails);
    assert |a + Executed(c, fails)| < |a + (c + rest)|;
  }

  /** Once the children before `i` have run, child `i` raising cuts the children's run there. */
  lemma ChildFails(children: seq<Element>, i: nat, fails: Event -> bool)
    requires i < |children|
    requires Executed(ElementsTrace(children[..i]), fails) == ElementsTrace(children[..i])
    requires Executed(Contribution(children[i]), fails) != Contribution(children[i])
    ensures Executed(ElementsTrace(children), fails)
         == ElementsTrace(children[..i]) + Executed(Contribution(children[i]), fails)
    ensures Executed(ElementsTrace(children), fails) != ElementsTrace(children)
  {
    SplitAt(children, i);
    FailStep(ElementsTrace(children[..i]), Contribution(children[i]), ElementsTrace(children[i + 1..]), fails);
  }

  /** Renders each child in list order, stopping at the first exception. */
  method RenderChildren(doc: Document, children: seq<Element>, fails: Event -> bool) returns (ok: bool)
    modifies doc
    ensures doc.events == old(doc.events) + Executed(ElementsTrace(children), fails)
    ensures ok <==> Executed(ElementsTrace(children), fails) == ElementsTrace(children)
  {
    ok := true;
    var i := 0;
    while i < |children|
      invariant 0 <= i <= |children|
      invariant Executed(ElementsTrace(children[..i]), fails) == ElementsTrace(children[..i])
      invariant doc.events == old(doc.events) + ElementsTrace(children[..i])
    {
      ok := RenderElement(doc, children[i], fails);
      if !ok {
        ChildFails(children, i, fails);
        return;
      }
      ChildRuns(children, i, fails);
      i := i + 1;
    }
    assert children[..i] == children;
  }

  /** Title, then filter description, then the children; stops at the first exception. */
  method RenderReport(doc: Document, report: Element, fails: Event -> bool) returns (ok: bool)
    requires report.Report?
    modifies doc
    ensures doc.events == old(doc.events) + Executed(BodyTrace(report), fails)
    ensures ok <==> Executed(BodyTrace(report), fails) == BodyTrace(report)
  {
    var title, filter := Title(report.title), FilterDescription(report.filterDescriptions);
    ghost var children := ElementsTrace(report.elements);
    assert BodyTrace(report) == [title] + ([filter] + children);
    ok := doc.Write(title, fails);
    if !ok {
      return;
    }
    AfterPassingPrefix([title], [filter] + children, fails);
    ok := doc.Write(filter, fails);
    if !ok {
      return;
    }
    AfterPassingPrefix([filter], children, fails);
    ok := RenderChildren(doc, report.elements, fails);
  }

  /** The full trace run step by step: open, then the body, then close. */
  lemma FullRun(root: Element, fails: Event -> bool)
    ensures var body, full := BodyTrace(root), FullTrace(root);
            Executed(full, fails) ==
              if fails(Open) then []
              else if Executed(body, fails) != body then [Open] + Executed(body, fails)
              else if fails(Close) then [Open] + body
              else full
    ensures Executed(FullTrace(root), fails) == FullTrace(root) <==>
              !fails(Open) && Executed(BodyTrace(root), fails) == BodyTrace(root) && !fails(Close)
  {
    var body := BodyTrace(root);
    assert FullTrace(root) == [Open] + (body + [Close]);
    ExecutedAppend([Open], body + [Close], fails);
    ExecutedAppend(body, [Close], fails);
    ExecutedLength(body, fails);
  }

  /**
   * Renders `root` into a fresh document. Creating the writer raises when
   * `writerFails`; after that the writes of the full trace happen in
   * order up to the first that raises. Any exception ends the render as
   * Aborted, and the document is then never closed.
   */
  method Render(root: Element, writerFails: bool, fails: Event -> bool) returns (doc: Document, outcome: Outcome)
    ensures fresh(doc)
    ensures doc.events == if writerFails then [] else Executed(FullTrace(root), fails)
    ensures outcome == Completed <==> !writerFails && Executed(FullTrace(root), fails) == FullTrace(root)
  {
    doc := new Document();
    if writerFails {
      return doc, Aborted;
    }
    ghost var body, run := BodyTrace(root), Executed(BodyTrace(root), fails);
    FullRun(root, fails);
    var ok := doc.Write(Open, fails);
    if !ok {
      return doc, Aborted;
    }
    if root.Report? {
      ok := RenderReport(doc, root, fails);
    } else {
      ok := RenderElement(doc, root, fails);
    }
    assert doc.events == [Open] + run && (ok <==> run == body);
    if !ok {
      return doc, Aborted;
    }
    assert FullTrace(root) == [Open] + body + [Close];
    ok := doc.Write(Close, fails);
    assert ok ==> doc.events == FullTrace(root);
    outcome := if ok then Completed else Aborted;
  }
}
