/**
 * `DisposeBag` of `dispose_bag.ts`: a list of clean-up callbacks run once, in registration
 * order, by `dispose`. Each registration wraps its argument in a new closure, modelled as
 * an `Entry` with a fresh id; what running an entry does to the outside world is recorded
 * in `effects`.
 */
module Disposal {
  import opened Wrappers

  /** The JavaScript values `add` can be given; a function or object is known by its id. */
  datatype JsValue =
    | Undefined
    | Null
    | Primitive(text: string)
    | Function(fn: nat)
    /** An object; `dispose` is its `dispose` property, `None` when it has none. */
    | Object(obj: nat, dispose: Option<JsValue>)

  /** `isDisposable`: a non-null object owning a function-valued `dispose` property. */
  predicate IsDisposable(v: JsValue) {
    v.Object? && v.dispose.Some? && v.dispose.value.Function?
  }

  /** The text a template literal makes of a value that is neither a function nor disposable. */
  function StringOf(v: JsValue): string {
    match v
    case Undefined => "undefined"
    case Null => "null"
    case Primitive(text) => text
    case Function(_) => "function"
    case Object(_, _) => "[object Object]"
  }

  /** An event source: one with `on`/`off`, or an `EventTarget`. */
  datatype Emitter = OnOff(source: nat) | EventTarget(target: nat)

  /** What a registered closure does when it runs. */
  datatype Action =
    | CallFunction(fn: nat)
    | CallDispose(obj: nat)
    /** `off` or `removeEventListener` of the wrapped listener `listener`. */
    | Unsubscribe(emitter: Emitter, eventType: string, listener: nat)

  /** A registered closure: a fresh function object, so two registrations never coincide. */
  datatype Entry = Entry(id: nat, action: Action)

  /**
   * An effect on the outside world: `fromEvent` subscribing `wrapper`, a new closure that
   * forwards each event to the caller's `listener`; or a registered closure being run.
   */
  datatype Effect = Subscribed(emitter: Emitter, eventType: string, wrapper: nat, listener: nat) | Ran(action: Action)

  const DISPOSED_MESSAGE: string := "DisposeBag is already disposed, create new instance"

  /** The error `add` throws for a value it cannot register. */
  function NotDisposableMessage(v: JsValue): string {
    StringOf(v) + " doesn't contain dispose method"
  }

  /** The clean-up action `add` registers for a value, or `None` when it throws. */
  function ActionFor(item: JsValue): (a: Option<Action>)
    ensures a.Some? <==> item.Function? || IsDisposable(item)
    ensures item.Function? ==> a == Some(CallFunction(item.fn))
    ensures IsDisposable(item) ==> a == Some(CallDispose(item.obj))
  {
    if item.Function? then Some(CallFunction(item.fn))
    else if IsDisposable(item) then Some(CallDispose(item.obj))
    else None
  }

  /** The effects of running every entry of `list` in order. */
  function RunAll(list: seq<Entry>): (r: seq<Effect>)
    ensures |r| == |list|
    ensures forall i :: 0 <= i < |list| ==> r[i] == Ran(list[i].action)
  {
    if list == [] then [] else RunAll(list[..|list| - 1]) + [Ran(list[|list| - 1].action)]
  }

  /** Entry ids are pairwise different and all below `bound`. */
  predicate FreshIds(list: seq<Entry>, bound: nat) {
    (forall i :: 0 <= i < |list| ==> list[i].id < bound) &&
    (forall i, j :: 0 <= i < j < |list| ==> list[i].id != list[j].id)
  }

  /** A new entry numbered `bound` keeps the ids different. */
  lemma AppendFresh(list: seq<Entry>, bound: nat, a: Action)
    requires FreshIds(list, bound)
    ensures FreshIds(list + [Entry(bound, a)], bound + 1)
  {
  }

  class DisposeBag {
    var list: seq<Entry>
    var disposed: bool
    /** The next fresh closure id. */
    var nextId: nat
    var effects: seq<Effect>

    predicate Valid()
      reads this
    {
      FreshIds(list, nextId)
    }

    constructor ()
      ensures Valid() && list == [] && !disposed && effects == []
    {
      list := [];
      disposed := false;
      nextId := 0;
      effects := [];
    }

    /**
     * `add`: throws once disposed; registers a new closure calling a function, or the
     * `dispose` method of a disposable object; throws for any other value.
     */
    method Add(item: JsValue) returns (r: Outcome)
      requires Valid()
      modifies this
      ensures Valid() && disposed == old(disposed) && effects == old(effects)
      ensures old(disposed) ==> r == Fail(DISPOSED_MESSAGE) && list == old(list)
      ensures !old(disposed) && ActionFor(item).None? ==>
        r == Fail(NotDisposableMessage(item)) && list == old(list)
      ensures !old(disposed) && ActionFor(item).Some? ==>
        r == Pass && list == old(list) + [Entry(old(nextId), ActionFor(item).value)]
      ensures nextId >= old(nextId)
    {
      if disposed {
        return Fail(DISPOSED_MESSAGE);
      }
      var action := ActionFor(item);
      if action.None? {
        return Fail(NotDisposableMessage(item));
      }
      Register(action.value);
      r := Pass;
    }

    /** Adds a new closure performing `a`. */
    method Register(a: Action)
      requires Valid()
      modifies this
      ensures Valid() && disposed == old(disposed) && effects == old(effects)
      ensures list == old(list) + [Entry(old(nextId), a)] && nextId == old(nextId) + 1
    {
      AppendFresh(list, nextId, a);
      list := list + [Entry(nextId, a)];
      nextId := nextId + 1;
    }

    /**
     * `fromEvent`: throws once disposed; otherwise subscribes a fresh wrapper of the listener
     * and registers the closure that unsubscribes that same wrapper.
     */
    method FromEvent(emitter: Emitter, eventType: string, listener: nat) returns (r: Outcome)
      requires Valid()
      modifies this
      ensures Valid() && disposed == old(disposed)
      ensures old(disposed) ==> r == Fail(DISPOSED_MESSAGE) && list == old(list) && effects == old(effects)
      ensures !old(disposed) ==>
        var wrapped := old(nextId);
        r == Pass &&
        effects == old(effects) + [Subscribed(emitter, eventType, wrapped, listener)] &&
        list == old(list) + [Entry(wrapped + 1, Unsubscribe(emitter, eventType, wrapped))]
    {
      if disposed {
        return Fail(DISPOSED_MESSAGE);
      }
      var wrapped := nextId;
      nextId := nextId + 1;
      effects := effects + [Subscribed(emitter, eventType, wrapped, listener)];
      Register(Unsubscribe(emitter, eventType, wrapped));
      r := Pass;
    }

    /** `dispose`: runs every closure once, in registration order, then empties the bag and closes it. */
    method Dispose()
      requires Valid()
      modifies this
      ensures Valid() && disposed && list == [] && nextId == old(nextId)
      ensures effects == old(effects) + RunAll(old(list))
    {
      var i := 0;
      while i < |list|
        invariant 0 <= i <= |list| && list == old(list) && nextId == old(nextId)
        invariant effects == old(effects) + RunAll(list[..i])
      {
        assert list[..i + 1][..i] == list[..i];
        effects := effects + [Ran(list[i].action)];
        i := i + 1;
      }
      assert list[..i] == list;
      list := [];
      disposed := true;
    }
  }

  /**
   * Adding the same callback twice registers two entries that call it, under different
   * ids, and disposing runs it twice.
   */
  lemma AddedTwiceRunsTwice(list: seq<Entry>, bound: nat, fn: nat)
    requires FreshIds(list, bound)
    ensures var twice := list + [Entry(bound, CallFunction(fn))] + [Entry(bound + 1, CallFunction(fn))];
      FreshIds(twice, bound + 2) &&
      RunAll(twice) == RunAll(list) + [Ran(CallFunction(fn)), Ran(CallFunction(fn))]
  {
    var once := list + [Entry(bound, CallFunction(fn))];
    AppendFresh(list, bound, CallFunction(fn));
    AppendFresh(once, bound + 1, CallFunction(fn));
  }
}
