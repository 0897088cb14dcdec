/** The editor's debounced auto-save (`useWorkflowPersistence`). Time is
    abstract: arming the one-second timer records the save it would issue,
    and an `Expire` event stands for the moment it fires. `N` and `E` are
    the canvas's node and edge types, whose contents the hook never
    inspects. */
module AutoSave {
  import opened Wrappers

  /** The argument of one `saveCanvas` call. */
  datatype SaveRequest<N, E> = SaveRequest(id: int, nodes: seq<N>, edges: seq<E>)

  /** The hook's observable state: its current props, the save the armed
      timer will attempt (`None` when no timer is armed), the saves issued
      so far, whether the latest save is still pending, and whether the
      component is mounted. */
  datatype Hook<N, E> = Hook(
    enabled: bool,
    id: int,
    nodes: seq<N>,
    edges: seq<E>,
    armed: Option<SaveRequest<N, E>>,
    saves: seq<SaveRequest<N, E>>,
    inFlight: bool,
    mounted: bool)

  /** What can happen to the hook: a render with changed props, the armed
      timer firing, a call of `saveNow`, the latest save settling, and
      unmounting. */
  datatype Event<N, E> =
    | Render(enabled: bool, id: int, nodes: seq<N>, edges: seq<E>)
    | Expire
    | SaveNow
    | Settle
    | Unmount

  /** The save the current props would issue. */
  function Current<N, E>(h: Hook<N, E>): SaveRequest<N, E> {
    SaveRequest(h.id, h.nodes, h.edges)
  }

  /** `debouncedSave`: when enabled, cancel the armed timer and arm a new
      one carrying the current props. */
  function Debounce<N, E>(h: Hook<N, E>): (r: Hook<N, E>)
    ensures h.enabled ==> r == h.(armed := Some(Current(h)))
    ensures !h.enabled ==> r == h
  {
    if !h.enabled then h else h.(armed := Some(Current(h)))
  }

  /** Issuing one save. */
  function Issue<N, E>(h: Hook<N, E>, req: SaveRequest<N, E>): Hook<N, E> {
    h.(saves := h.saves + [req], inFlight := true)
  }

  /** The state right after the first render: the effect runs once. */
  function Mount<N, E>(enabled: bool, id: int, nodes: seq<N>, edges: seq<E>): (h: Hook<N, E>)
    ensures h.saves == [] && !h.inFlight && h.mounted
    ensures h.armed.Some? <==> enabled
  {
    Debounce(Hook(enabled, id, nodes, edges, None, [], false, true))
  }

  /** One event. A render re-runs the effect: its cleanup cancels the
      armed timer, then `debouncedSave` runs with the new props. A firing
      timer skips the save when both captured collections are empty.
      `saveNow` cancels the timer and saves the current collections without
      that check. */
  function Step<N, E>(h: Hook<N, E>, e: Event<N, E>): (r: Hook<N, E>)
    ensures r.mounted == (h.mounted && !e.Unmount?)
    ensures |h.saves| <= |r.saves| <= |h.saves| + 1 && r.saves[..|h.saves|] == h.saves
  {
    match e
    case Render(enabled, id, nodes, edges) =>
      Debounce(h.(enabled := enabled, id := id, nodes := nodes, edges := edges, armed := None))
    case Expire =>
      if h.armed.None? then h
      else
        var req := h.armed.value;
        var fired := h.(armed := None);
        if |req.nodes| == 0 && |req.edges| == 0 then fired else Issue(fired, req)
    case SaveNow =>
      if !h.enabled then h else Issue(h.(armed := None), Current(h))
    case Settle =>
      h.(inFlight := false)
    case Unmount =>
      h.(armed := None, mounted := false)
  }

  /** A run of events, in order. */
  function Steps<N, E>(h: Hook<N, E>, es: seq<Event<N, E>>): Hook<N, E>
    decreases |es|
  {
    if es == [] then h else Steps(Step(h, es[0]), es[1..])
  }

  /** `isSaving`: the latest save is pending, and the hook is enabled. */
  predicate IsSaving<N, E>(h: Hook<N, E>) {
    h.enabled && h.inFlight
  }

  // ---------------------------------------------------------------------
  // Properties

  /** A disabled hook arms no timer when rendered, and neither a firing
      timer nor `saveNow` then issues a save; `isSaving` reads false. */
  lemma DisabledDoesNothing<N, E>(h: Hook<N, E>, id: int, nodes: seq<N>, edges: seq<E>)
    ensures var r := Step(h, Render(false, id, nodes, edges));
      && r.armed.None? && !IsSaving(r)
      && Step(r, Expire).saves == h.saves
      && Step(r, SaveNow).saves == h.saves
  {
  }

  /** Every render ends with at most the one timer it armed itself, carrying
      the new props; whatever was armed before is gone. */
  lemma RenderReplacesTimer<N, E>(h: Hook<N, E>, id: int, nodes: seq<N>, edges: seq<E>)
    ensures Step(h, Render(true, id, nodes, edges)).armed == Some(SaveRequest(id, nodes, edges))
  {
  }

  /** Renders with the hook enabled, with no firing in between. */
  ghost predicate EnabledRenders<N, E>(es: seq<Event<N, E>>) {
    forall i | 0 <= i < |es| :: es[i].Render? && es[i].enabled
  }

  /** A burst of enabled renders issues no save and leaves armed exactly
      the save carrying the last render's props. */
  lemma {:induction false} BurstArmsLast<N, E>(h: Hook<N, E>, es: seq<Event<N, E>>)
    requires es != [] && EnabledRenders(es)
    ensures var r := Steps(h, es); var last := es[|es| - 1];
      && r.saves == h.saves
      && r.armed == Some(SaveRequest(last.id, last.nodes, last.edges))
    decreases |es|
  {
    var h' := Step(h, es[0]);
    if |es| > 1 {
      assert EnabledRenders(es[1..]);
      BurstArmsLast(h', es[1..]);
      assert es[1..][|es[1..]| - 1] == es[|es| - 1];
    } else {
      assert Steps(h', es[1..]) == h';
    }
  }

  /** A burst of enabled renders followed by the timer firing issues
      exactly one save, carrying the last render's props, unless both of
      its collections are empty, in which case it issues none. */
  lemma {:induction false} BurstThenExpire<N, E>(h: Hook<N, E>, es: seq<Event<N, E>>)
    requires es != [] && EnabledRenders(es)
    ensures var last := es[|es| - 1];
      var req := SaveRequest(last.id, last.nodes, last.edges);
      var r := Steps(h, es + [Expire]);
      && (|last.nodes| == 0 && |last.edges| == 0 ==> r.saves == h.saves)
      && (|last.nodes| != 0 || |last.edges| != 0 ==> r.saves == h.saves + [req])
      && r.armed.None?
  {
    BurstArmsLast(h, es);
    StepsAppend(h, es, [Expire]);
  }

  /** Running two runs of events one after the other. */
  lemma {:induction false} StepsAppend<N, E>(h: Hook<N, E>, a: seq<Event<N, E>>, b: seq<Event<N, E>>)
    ensures Steps(h, a + b) == Steps(Steps(h, a), b)
    decreases |a|
  {
    if a != [] {
      assert (a + b)[1..] == a[1..] + b;
      StepsAppend(Step(h, a[0]), a[1..], b);
    } else {
      assert a + b == b;
    }
  }

  /** The empty-canvas check keeps no history: a timer carrying empty
      collections issues nothing, whatever was saved before. */
  lemma EmptyExpirySkipped<N, E>(h: Hook<N, E>)
    requires h.armed.Some? && |h.armed.value.nodes| == 0 && |h.armed.value.edges| == 0
    ensures Step(h, Expire).saves == h.saves
  {
  }

  /** `saveNow` on an enabled hook cancels the timer and issues exactly one
      save with the current props, empty or not. */
  lemma SaveNowSavesOnce<N, E>(h: Hook<N, E>)
    requires h.enabled
    ensures var r := Step(h, SaveNow);
      r.saves == h.saves + [Current(h)] && r.armed.None? && IsSaving(r)
  {
  }

  /** Events that can still reach a hook after it unmounted: its timer
      would fire, and a pending save settles. */
  ghost predicate AfterTeardown<N, E>(es: seq<Event<N, E>>) {
    forall i | 0 <= i < |es| :: es[i].Expire? || es[i].Settle?
  }

  /** No save fires after teardown. */
  lemma {:induction false} NoSaveAfterUnmount<N, E>(h: Hook<N, E>, es: seq<Event<N, E>>)
    requires AfterTeardown(es)
    ensures Steps(Step(h, Unmount), es).saves == h.saves
  {
    NoSaveWhileDisarmed(Step(h, Unmount), es);
  }

  /** Without an armed timer, firing and settling issue nothing. */
  lemma {:induction false} NoSaveWhileDisarmed<N, E>(h: Hook<N, E>, es: seq<Event<N, E>>)
    requires h.armed.None? && AfterTeardown(es)
    ensures Steps(h, es).saves == h.saves && Steps(h, es).armed.None?
    decreases |es|
  {
    if es != [] {
      assert AfterTeardown(es[1..]);
      NoSaveWhileDisarmed(Step(h, es[0]), es[1..]);
    }
  }

  /** The hook as a component instance: the props and the timer handle are
      fields that the renders, the timer and `saveNow` update in place. */
  class Persistence<N, E> {
    var enabled: bool
    var workflowId: int
    var nodes: seq<N>
    var edges: seq<E>
    /** `timeoutRef.current`, by the save its callback would attempt. */
    var armed: Option<SaveRequest<N, E>>
    /** The `saveCanvas` calls issued, in order. */
    var saves: seq<SaveRequest<N, E>>
    /** `isPending` of the save mutation. */
    var inFlight: bool
    var mounted: bool

    function State(): Hook<N, E>
      reads this
    {
      Hook(enabled, workflowId, nodes, edges, armed, saves, inFlight, mounted)
    }

    /** The first render and its effect. */
    constructor (enabled: bool, workflowId: int, nodes: seq<N>, edges: seq<E>)
      ensures State() == Mount(enabled, workflowId, nodes, edges)
    {
      this.enabled := enabled;
      this.workflowId := workflowId;
      this.nodes := nodes;
      this.edges := edges;
      armed := None;
      saves := [];
      inFlight := false;
      mounted := true;
      new;
      DebouncedSave();
    }

    /** `debouncedSave`. */
    method DebouncedSave()
      modifies this
      ensures State() == Debounce(old(State()))
    {
      if !enabled {
        return;
      }
      armed := None;
      armed := Some(SaveRequest(workflowId, nodes, edges));
    }

    /** The effect's cleanup. */
    method Cleanup()
      modifies this
      ensures State() == old(State()).(armed := None)
    {
      armed := None;
    }

    /** A render with changed props re-runs the effect. */
    method Rerender(enabled: bool, workflowId: int, nodes: seq<N>, edges: seq<E>)
      modifies this
      ensures State() == Step(old(State()), Render(enabled, workflowId, nodes, edges))
    {
      Cleanup();
      this.enabled := enabled;
      this.workflowId := workflowId;
      this.nodes := nodes;
      this.edges := edges;
      DebouncedSave();
    }

    /** The armed timer fires. */
    method Expire()
      modifies this
      ensures State() == Step(old(State()), Event.Expire)
    {
      if armed.None? {
        return;
      }
      var req := armed.value;
      armed := None;
      if |req.nodes| == 0 && |req.edges| == 0 {
        return;
      }
      saves := saves + [req];
      inFlight := true;
    }

    /** `saveNow`. */
    method SaveNow()
      modifies this
      ensures State() == Step(old(State()), Event.SaveNow)
    {
      if !enabled {
        return;
      }
      armed := None;
      saves := saves + [SaveRequest(workflowId, nodes, edges)];
      inFlight := true;
    }

    /** The latest save settles, either way. */
    method Settle()
      modifies this
      ensures State() == Step(old(State()), Event.Settle)
    {
      inFlight := false;
    }

    /** Unmounting runs the cleanup one last time. */
    method Unmount()
      modifies this
      ensures State() == Step(old(State()), Event.Unmount)
    {
      Cleanup();
      mounted := false;
    }

    /** `isSaving`. */
    function IsSavingNow(): (b: bool)
      reads this
      ensures b ==> enabled
      ensures b == IsSaving(State())
    {
      enabled && inFlight
    }
  }
}
