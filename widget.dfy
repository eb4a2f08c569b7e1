/** The editor mode toggle as a widget over time: the props it receives (the
    hover flag from its parent, the page metadata from the current-page
    source), the status pair it stores, and the page-mode requests its clicks
    issue. Events are applied one at a time, in order; the last one wins. */
module ModeSwitchWidget {
  import opened ModeSwitch

  /** A request to the page helper to change the mode of page `id`. */
  datatype Request = ChangePageMode(id: string, mode: Mode)

  /** What can happen to the widget: a render with new props, the pointer
      entering or leaving an item, a click on an item. Leaving either item
      does the same thing, so one event stands for both. */
  datatype Event =
    | UpdateProps(isHover: bool, meta: Option<PageMeta>)
    | Enter(side: Side)
    | Leave
    | Click(side: Side)

  /** The widget's props, its stored status pair and the requests issued so far. */
  datatype Widget = Widget(isHover: bool, meta: Option<PageMeta>, status: RadioItemStatus, requests: seq<Request>)

  /** The status pair the props call for. */
  function Derived(w: Widget): RadioItemStatus
  {
    ModifyRadioItemStatus(w.isHover, ResolveMeta(w.meta).mode)
  }

  /** The stored pair is either the derived one or an item's enter override. */
  predicate Consistent(w: Widget)
  {
    w.status == Derived(w) || w.status == Hovered(Left) || w.status == Hovered(Right)
  }

  /** The effect re-runs only when the hover flag or the (defaulted) mode changes. */
  predicate DepsChanged(w: Widget, isHover: bool, meta: Option<PageMeta>)
  {
    w.isHover != isHover || ResolveMeta(w.meta).mode != ResolveMeta(meta).mode
  }

  /** The widget as first rendered: the stored pair starts from the derivation. */
  function Mount(isHover: bool, meta: Option<PageMeta>): (w: Widget)
    ensures w.isHover == isHover && w.meta == meta && w.requests == []
    ensures w.status == Derived(w) && Consistent(w)
  {
    Widget(isHover, meta, ModifyRadioItemStatus(isHover, ResolveMeta(meta).mode), [])
  }

  /** One event. */
  function Step(w: Widget, e: Event): (r: Widget)
    // only a render changes the props
    ensures e.UpdateProps? ==> r.isHover == e.isHover && r.meta == e.meta
    ensures !e.UpdateProps? ==> r.isHover == w.isHover && r.meta == w.meta
    // a render resets the pair when the hover flag or the mode moved, and keeps it otherwise
    ensures e.UpdateProps? && DepsChanged(w, e.isHover, e.meta) ==> r.status == Derived(r)
    ensures e.UpdateProps? && !DepsChanged(w, e.isHover, e.meta) ==> r.status == w.status
    // entering an item stretches it whatever came before; leaving restores the derivation
    ensures e.Enter? ==> r.status == Hovered(e.side)
    ensures e.Leave? ==> r.status == Derived(r)
    // a click issues exactly one request, for the clicked item's mode, and changes no status
    ensures e.Click? ==> r.status == w.status
    ensures e.Click? ==> r.requests == w.requests + [ChangePageMode(ResolveMeta(w.meta).id, SideMode(e.side))]
    ensures !e.Click? ==> r.requests == w.requests
    ensures Consistent(w) ==> Consistent(r)
  {
    match e
    case UpdateProps(isHover, meta) =>
      var v := w.(isHover := isHover, meta := meta);
      if DepsChanged(w, isHover, meta) then v.(status := Derived(v)) else v
    case Enter(side) => w.(status := Hovered(side))
    case Leave => w.(status := Derived(w))
    case Click(side) => w.(requests := w.requests + [ChangePageMode(ResolveMeta(w.meta).id, SideMode(side))])
  }

  /** A sequence of events, first to last. */
  function Run(w: Widget, es: seq<Event>): (r: Widget)
    decreases |es|
    ensures Consistent(w) ==> Consistent(r)
    ensures w.requests <= r.requests
  {
    if es == [] then w else Run(Step(w, es[0]), es[1..])
  }

  /** The modes of a list of requests, in order. */
  function RequestModes(rs: seq<Request>): (ms: seq<Mode>)
    ensures |ms| == |rs|
  {
    if rs == [] then [] else [rs[0].mode] + RequestModes(rs[1..])
  }

  /** The modes the clicks of an event sequence ask for, in order. */
  function ClickModes(es: seq<Event>): (ms: seq<Mode>)
    ensures |ms| <= |es|
    ensures ClicksOnly(es) ==> |ms| == |es| && forall i :: 0 <= i < |es| ==> ms[i] == SideMode(es[i].side)
    ensures (forall i :: 0 <= i < |es| ==> !es[i].Click?) ==> ms == []
  {
    if es == [] then []
    else (if es[0].Click? then [SideMode(es[0].side)] else []) + ClickModes(es[1..])
  }

  predicate PointerOnly(es: seq<Event>)
  {
    forall i :: 0 <= i < |es| ==> !es[i].UpdateProps?
  }

  predicate ClicksOnly(es: seq<Event>)
  {
    forall i :: 0 <= i < |es| ==> es[i].Click?
  }

  lemma {:induction false} RequestModesAppend(a: seq<Request>, b: seq<Request>)
    ensures RequestModes(a + b) == RequestModes(a) + RequestModes(b)
  {
    if a != [] {
      assert (a + b)[1..] == a[1..] + b;
      RequestModesAppend(a[1..], b);
    } else {
      assert a + b == b;
    }
  }

  /** Running two event sequences one after the other. */
  lemma {:induction false} RunConcat(w: Widget, a: seq<Event>, b: seq<Event>)
    decreases |a|
    ensures Run(w, a + b) == Run(Run(w, a), b)
  {
    if a == [] {
      assert a + b == b;
    } else {
      assert (a + b)[0] == a[0];
      assert (a + b)[1..] == a[1..] + b;
      RunConcat(Step(w, a[0]), a[1..], b);
    }
  }

  /** Entering an item after any history leaves that item stretched and the
      other normal, whatever the mode. */
  lemma {:induction false} EnterOverridesAnyHistory(w: Widget, es: seq<Event>, side: Side)
    ensures StatusOf(Run(w, es + [Enter(side)]).status, side) == Stretch
    ensures StatusOf(Run(w, es + [Enter(side)]).status, Opposite(side)) == Normal
  {
    RunConcat(w, es, [Enter(side)]);
  }

  /** Leaving an item after any history brings the stored pair back to the
      derivation of the props then current: no enter override survives it. */
  lemma {:induction false} LeaveRestoresAfterAnyHistory(w: Widget, es: seq<Event>)
    ensures Run(w, es + [Leave]).status == Derived(Run(w, es + [Leave]))
    ensures Run(w, es + [Leave]).status == Derived(Run(w, es))
  {
    RunConcat(w, es, [Leave]);
  }

  /** A render that moves the hover flag or the mode, after any history, also
      brings the stored pair back to the derivation. */
  lemma {:induction false} PropChangeRestoresAfterAnyHistory(w: Widget, es: seq<Event>, isHover: bool, meta: Option<PageMeta>)
    requires DepsChanged(Run(w, es), isHover, meta)
    ensures Run(w, es + [UpdateProps(isHover, meta)]).status == ModifyRadioItemStatus(isHover, ResolveMeta(meta).mode)
  {
    RunConcat(w, es, [UpdateProps(isHover, meta)]);
  }

  lemma LeaveIsIdempotent(w: Widget)
    ensures Step(Step(w, Leave), Leave) == Step(w, Leave)
  {
  }

  /** Every click of a sequence issues exactly one request, in order, for the
      mode of the item clicked; nothing else issues one. */
  lemma {:induction false} OneRequestPerClick(w: Widget, es: seq<Event>)
    decreases |es|
    ensures RequestModes(Run(w, es).requests) == RequestModes(w.requests) + ClickModes(es)
    ensures |Run(w, es).requests| == |w.requests| + |ClickModes(es)|
  {
    if es != [] {
      var v := Step(w, es[0]);
      OneRequestPerClick(v, es[1..]);
      if es[0].Click? {
        RequestModesAppend(w.requests, [ChangePageMode(ResolveMeta(w.meta).id, SideMode(es[0].side))]);
      }
    }
  }

  /** Without a render in between, pointer events keep the props, and every
      request they issue names the page the widget was showing. */
  lemma {:induction false} PointerEventsKeepPage(w: Widget, es: seq<Event>)
    decreases |es|
    requires PointerOnly(es)
    ensures Run(w, es).isHover == w.isHover && Run(w, es).meta == w.meta
    ensures forall i :: |w.requests| <= i < |Run(w, es).requests| ==>
      Run(w, es).requests[i].id == ResolveMeta(w.meta).id
  {
    if es != [] {
      var v := Step(w, es[0]);
      assert PointerOnly(es[1..]) by {
        forall i | 0 <= i < |es[1..]| ensures !es[1..][i].UpdateProps? {
          assert es[1..][i] == es[i + 1];
        }
      }
      PointerEventsKeepPage(v, es[1..]);
    }
  }

  /** Clicks alone never change the stored pair or the props. */
  lemma {:induction false} ClicksKeepStatus(w: Widget, es: seq<Event>)
    decreases |es|
    requires ClicksOnly(es)
    ensures Run(w, es).status == w.status
    ensures Run(w, es).isHover == w.isHover && Run(w, es).meta == w.meta
  {
    if es != [] {
      assert ClicksOnly(es[1..]) by {
        forall i | 0 <= i < |es[1..]| ensures es[1..][i].Click? {
          assert es[1..][i] == es[i + 1];
        }
      }
      ClicksKeepStatus(Step(w, es[0]), es[1..]);
    }
  }

  /** In every consistent state at least one item is visible and at most one
      is stretched; a pair other than the derived one is an enter override. */
  lemma ConsistentStates(w: Widget)
    requires Consistent(w)
    ensures w.status.left != Hidden || w.status.right != Hidden
    ensures !(w.status.left == Stretch && w.status.right == Stretch)
    ensures w.status != Derived(w) ==> exists side :: w.status == Hovered(side)
  {
  }

  /** Page mode, not hovered; the parent reports hover; the pointer enters the
      Edgeless item and leaves it; the parent reports the hover over. */
  lemma HoverScenario()
    ensures
      var meta := Some(PageMeta(None, Some(Page), Some("p")));
      var w0 := Mount(false, meta);
      var w1 := Step(w0, UpdateProps(true, meta));
      var w2 := Step(w1, Enter(Right));
      var w3 := Step(w2, Leave);
      var w4 := Step(w3, UpdateProps(false, meta));
      && w0.status == RadioItemStatus(Shrink, Hidden)
      && w1.status == RadioItemStatus(Stretch, Normal)
      && w2.status == RadioItemStatus(Normal, Stretch)
      && w3.status == RadioItemStatus(Stretch, Normal)
      && w4.status == RadioItemStatus(Shrink, Hidden)
      && w4.requests == []
  {
  }

  /** The toggle component. Its props are fields that a render replaces; the
      stored status pair is the one piece of state it writes itself; the
      requests its clicks send to the page helper are recorded in a ghost log. */
  class EditorModeSwitch {
    var isHover: bool
    var meta: Option<PageMeta>
    var radioItemStatus: RadioItemStatus
    ghost var requests: seq<Request>

    ghost function Snapshot(): Widget
      reads this
    {
      Widget(isHover, meta, radioItemStatus, requests)
    }

    ghost predicate Valid()
      reads this
    {
      Consistent(Snapshot())
    }

    /** First render: the stored pair is initialised from the derivation. */
    constructor (isHover: bool, meta: Option<PageMeta>)
      ensures Valid() && Snapshot() == Mount(isHover, meta)
      ensures this.isHover == isHover && this.meta == meta && requests == []
      ensures radioItemStatus == ModifyRadioItemStatus(isHover, ResolveMeta(meta).mode)
    {
      this.isHover := isHover;
      this.meta := meta;
      radioItemStatus := ModifyRadioItemStatus(isHover, ResolveMeta(meta).mode);
      requests := [];
    }

    /** The mode the toggle shows: the page's, or Page when absent. */
    function CurrentMode(): Mode
      reads this
    {
      ResolveMeta(meta).mode
    }

    /** A render with new props, followed by the effect on the hover flag and
      the mode. */
    method UpdateProps(hover: bool, newMeta: Option<PageMeta>)
      requires Valid()
      modifies this
      ensures Valid() && Snapshot() == Step(old(Snapshot()), Event.UpdateProps(hover, newMeta))
      ensures isHover == hover && meta == newMeta && requests == old(requests)
      ensures old(isHover) != hover || ResolveMeta(old(meta)).mode != ResolveMeta(newMeta).mode ==>
        radioItemStatus == ModifyRadioItemStatus(hover, ResolveMeta(newMeta).mode)
      ensures old(isHover) == hover && ResolveMeta(old(meta)).mode == ResolveMeta(newMeta).mode ==>
        radioItemStatus == old(radioItemStatus)
    {
      var changed := isHover != hover || CurrentMode() != ResolveMeta(newMeta).mode;
      isHover, meta := hover, newMeta;
      if changed {
        radioItemStatus := ModifyRadioItemStatus(isHover, CurrentMode());
      }
    }

    /** Pointer enters the Paper item. */
    method EnterLeft()
      requires Valid()
      modifies this
      ensures Valid() && Snapshot() == Step(old(Snapshot()), Enter(Left))
      ensures radioItemStatus == RadioItemStatus(Stretch, Normal)
      ensures isHover == old(isHover) && meta == old(meta) && requests == old(requests)
    {
      radioItemStatus := RadioItemStatus(Stretch, Normal);
    }

    /** Pointer enters the Edgeless item. */
    method EnterRight()
      requires Valid()
      modifies this
      ensures Valid() && Snapshot() == Step(old(Snapshot()), Enter(Right))
      ensures radioItemStatus == RadioItemStatus(Normal, Stretch)
      ensures isHover == old(isHover) && meta == old(meta) && requests == old(requests)
    {
      radioItemStatus := RadioItemStatus(Normal, Stretch);
    }

    /** Pointer leaves either item. */
    method Leave()
      requires Valid()
      modifies this
      ensures Valid() && Snapshot() == Step(old(Snapshot()), Event.Leave)
      ensures radioItemStatus == ModifyRadioItemStatus(isHover, CurrentMode())
      ensures isHover == old(isHover) && meta == old(meta) && requests == old(requests)
    {
      radioItemStatus := ModifyRadioItemStatus(isHover, CurrentMode());
    }

    /** Click on the Paper item: one request to show the page as Paper. */
    method ClickLeft()
      requires Valid()
      modifies this
      ensures Valid() && Snapshot() == Step(old(Snapshot()), Click(Left))
      ensures requests == old(requests) + [ChangePageMode(ResolveMeta(meta).id, Page)]
      ensures radioItemStatus == old(radioItemStatus)
      ensures isHover == old(isHover) && meta == old(meta)
    {
      requests := requests + [ChangePageMode(ResolveMeta(meta).id, Page)];
    }

    /** Click on the Edgeless item: one request to show the page as Edgeless. */
    method ClickRight()
      requires Valid()
      modifies this
      ensures Valid() && Snapshot() == Step(old(Snapshot()), Click(Right))
      ensures requests == old(requests) + [ChangePageMode(ResolveMeta(meta).id, Edgeless)]
      ensures radioItemStatus == old(radioItemStatus)
      ensures isHover == old(isHover) && meta == old(meta)
    {
      requests := requests + [ChangePageMode(ResolveMeta(meta).id, Edgeless)];
    }

    /** What the toggle currently renders. */
    function View(): (v: SwitchView)
      reads this
      ensures v.paper.status == radioItemStatus.left && v.edgeless.status == radioItemStatus.right
      ensures v.shrink == !isHover && v.middleLineHidden == !isHover
      ensures v.paper.active <==> CurrentMode() == Page
      ensures v.edgeless.active <==> CurrentMode() == Edgeless
      // what a reachable widget shows: some item visible, never both stretched
      ensures Valid() ==> v.paper.status != Hidden || v.edgeless.status != Hidden
      ensures Valid() ==> !(v.paper.status == Stretch && v.edgeless.status == Stretch)
    {
      RenderSwitch(isHover, meta, radioItemStatus)
    }
  }
}
