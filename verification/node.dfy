/** The sequential state of a pipeline node: its input and output bindings,
    its one-shot binding to a runner, its enable flag and the listeners that
    flip it, and one iteration of its scheduling loop. Threads, sleeping and
    rate limiting are not modelled; see README.md. */
module Nodes {
  import opened Wrappers
  import opened Buffers
  import opened NodeSpec

  /** A hot-key: a key name or an ascii code. */
  datatype Key = Named(text: string) | Code(code: int)

  /** Whether an `enable_key` counts as set: Python's truthiness, so an empty
      key name and the code 0 count as unset. */
  predicate KeySet(k: Option<Key>) {
    k.Some? &&
    match k.value
    case Named(s) => |s| > 0
    case Code(c) => c != 0
  }

  /** The argument of `register_output_buffer`: one name or a list of names. */
  datatype BufferNames = One(name: string) | Many(names: seq<string>)

  function AsList(b: BufferNames): (names: seq<string>) {
    match b
    case One(n) => [n]
    case Many(ns) => ns
  }

  datatype Trigger = Event(name: string) | Hotkey(key: Key)

  /** What a listener calls when its trigger fires: the node's own toggle, or
      a handler supplied from outside whose effect is not modelled. */
  datatype Handler = ToggleEnable | External(id: string)

  datatype Listener = Listener(trigger: Trigger, handler: Handler)

  class Node {
    const name: string
    const enableKey: Option<Key>
    const maxFps: int
    const transforms: Transforms
    var runner: Option<BufferManager<Message>>
    var enabled: bool
    var inputBuffers: seq<InputBinding>
    var outputBuffers: seq<string>
    /** The listener loops started for this node, in the order they were started. */
    var listeners: seq<Listener>

    /** A node with an enable key overrides `bypass`; only such a node has a
        toggle listener, so only such a node is ever disabled. */
    ghost predicate Valid()
      reads this
    {
      && (KeySet(enableKey) ==> transforms.bypass.Some?)
      && (forall l :: l in listeners && l.handler.ToggleEnable? ==> KeySet(enableKey))
      && (!enabled ==> KeySet(enableKey))
    }

    constructor (name: string, enableKey: Option<Key>, transforms: Transforms, maxFps: int := 30)
      requires KeySet(enableKey) ==> transforms.bypass.Some?
      ensures Valid()
      ensures this.name == name && this.enableKey == enableKey && this.transforms == transforms && this.maxFps == maxFps
      ensures runner.None? && enabled && inputBuffers == [] && outputBuffers == [] && listeners == []
    {
      this.name := name;
      this.enableKey := enableKey;
      this.transforms := transforms;
      this.maxFps := maxFps;
      runner := None;
      enabled := true;
      inputBuffers := [];
      outputBuffers := [];
      listeners := [];
    }

    /** Construction: refused exactly when an enable key is set and `bypass`
        is not overridden. */
    static method Create(name: string, enableKey: Option<Key>, transforms: Transforms, maxFps: int := 30)
      returns (r: Result<Node, NodeError>)
      ensures r.Failure? <==> KeySet(enableKey) && transforms.bypass.None?
      ensures r.Failure? ==> r.error == ToggleWithoutBypass
      ensures r.Success? ==> fresh(r.value) && r.value.Valid()
      ensures r.Success? ==> r.value.name == name && r.value.enableKey == enableKey && r.value.transforms == transforms
      ensures r.Success? ==> r.value.runner.None? && r.value.enabled
      ensures r.Success? ==> r.value.inputBuffers == [] && r.value.outputBuffers == [] && r.value.listeners == []
    {
      if KeySet(enableKey) && transforms.bypass.None? {
        return Failure(ToggleWithoutBypass);
      }
      var node := new Node(name, enableKey, transforms, maxFps);
      r := Success(node);
    }

    /** Appends one input binding; nothing else changes. */
    method RegisterInputBuffer(bufferName: string, inputName: string, essential: bool := false)
      requires Valid()
      modifies this`inputBuffers
      ensures Valid()
      ensures inputBuffers == old(inputBuffers) + [InputBinding(bufferName, inputName, essential)]
    {
      inputBuffers := inputBuffers + [InputBinding(bufferName, inputName, essential)];
    }

    /** Appends one output binding per given name, in the given order; nothing
        else changes. */
    method RegisterOutputBuffer(bufferName: BufferNames)
      requires Valid()
      modifies this`outputBuffers
      ensures Valid()
      ensures outputBuffers == old(outputBuffers) + AsList(bufferName)
    {
      var names := AsList(bufferName);
      var i := 0;
      while i < |names|
        invariant 0 <= i <= |names|
        invariant outputBuffers == old(outputBuffers) + names[..i]
      {
        outputBuffers := outputBuffers + [names[i]];
        i := i + 1;
        assert names[..i] == names[..i - 1] + [names[i - 1]];
      }
      assert names[..|names|] == names;
    }

    /** Starts a listener for a custom event; refused before the node is bound
        to a runner. */
    method RegisterEventHandler(eventName: string, handlerId: string) returns (r: Outcome<NodeError>)
      requires Valid()
      modifies this`listeners
      ensures Valid()
      ensures runner.None? ==> r == Fail(NotBoundToRunner) && listeners == old(listeners)
      ensures runner.Some? ==> r == Pass && listeners == old(listeners) + [Listener(Event(eventName), External(handlerId))]
    {
      if runner.None? {
        return Fail(NotBoundToRunner);
      }
      listeners := listeners + [Listener(Event(eventName), External(handlerId))];
      r := Pass;
    }

    /** Starts a listener for a hot-key; refused before the node is bound to a
        runner. The toggle handler exists only on a node whose enable key is set. */
    method RegisterHotkeyHandler(key: Key, handler: Handler) returns (r: Outcome<NodeError>)
      requires Valid()
      requires handler.ToggleEnable? ==> KeySet(enableKey)
      modifies this`listeners
      ensures Valid()
      ensures runner.None? ==> r == Fail(NotBoundToRunner) && listeners == old(listeners)
      ensures runner.Some? ==> r == Pass && listeners == old(listeners) + [Listener(Hotkey(key), handler)]
    {
      if runner.None? {
        return Fail(NotBoundToRunner);
      }
      listeners := listeners + [Listener(Hotkey(key), handler)];
      r := Pass;
    }

    /** Binds the node to a runner once; a second call is refused and changes
        nothing. Binding a node with an enable key starts its toggle listener. */
    method SetRunner(r: BufferManager<Message>) returns (res: Outcome<NodeError>)
      requires Valid()
      modifies this`runner, this`listeners
      ensures Valid()
      ensures old(runner).Some? ==> res == Fail(AlreadyBound) && runner == old(runner) && listeners == old(listeners)
      ensures old(runner).None? ==> res == Pass && runner == Some(r)
      ensures old(runner).None? && KeySet(enableKey) ==>
                listeners == old(listeners) + [Listener(Hotkey(enableKey.value), ToggleEnable)]
      ensures old(runner).None? && !KeySet(enableKey) ==> listeners == old(listeners)
    {
      if runner.Some? {
        return Fail(AlreadyBound);
      }
      runner := Some(r);
      res := Pass;
      if KeySet(enableKey) {
        var registered := RegisterHotkeyHandler(enableKey.value, ToggleEnable);
      }
    }

    /** The toggle handler: negates the enable flag, so two toggles restore it. */
    method Toggle()
      requires Valid() && KeySet(enableKey)
      modifies this`enabled
      ensures Valid()
      ensures enabled == !old(enabled)
    {
      enabled := !enabled;
    }

    /** One round of listener `i`'s loop, once its trigger has fired: the
        handler runs once. */
    method HandleTrigger(i: nat)
      requires Valid() && i < |listeners|
      modifies this`enabled
      ensures Valid()
      ensures listeners[i].handler.ToggleEnable? ==> enabled == !old(enabled)
      ensures listeners[i].handler.External? ==> enabled == old(enabled)
    {
      if listeners[i].handler.ToggleEnable? {
        assert listeners[i] in listeners;
        Toggle();
      }
    }

    /** Gathers the inputs of one iteration from the runner's buffers: first
        checks every essential buffer without consuming anything, then takes
        one item per binding in binding order. An empty buffer gives `None`
        to an inessential input without blocking, as the documentation
        promises; for an essential input the get blocks, so the gathering is
        suspended there, holding what it has fetched. */
    method GetInputFromBuffer() returns (g: Gathered)
      requires runner.Some? ==> runner.value.Valid()
      modifies if runner.Some? then {runner.value} else {}
      ensures runner.None? ==> g == Failed(NotBoundToRunner)
      ensures runner.Some? ==>
                runner.value.Valid() &&
                (g, runner.value.buffers) == Gather(old(runner.value.buffers), inputBuffers)
    {
      if runner.None? {
        return Failed(NotBoundToRunner);
      }
      var mgr := runner.value;
      ghost var reg := mgr.buffers;
      var bs := inputBuffers;

      // Check that the essential buffers are ready.
      var i := 0;
      while i < |bs|
        invariant 0 <= i <= |bs|
        invariant mgr.buffers == reg && mgr.Valid()
        invariant CheckEssentials(reg, bs) == CheckEssentials(reg, bs[i..])
      {
        assert bs[i..][1..] == bs[i + 1..];
        var b := bs[i];
        if b.essential {
          var empty := mgr.IsEmpty(b.bufferName);
          if empty.Failure? {
            return Failed(BufferFailure(empty.error));
          }
          if empty.value {
            return NotReady;
          }
        }
        i := i + 1;
      }

      // Fetch one item per binding.
      var result := Defaults(bs);
      assert bs[0..] == bs;
      i := 0;
      while i < |bs|
        invariant 0 <= i <= |bs|
        invariant mgr.Valid()
        invariant FetchFrom(mgr.buffers, bs[i..], result) == Gather(reg, bs)
      {
        assert bs[i..][1..] == bs[i + 1..];
        var b := bs[i];
        var data := mgr.Get(b.bufferName, false);
        if data.Failure? {
          if data.error.NotRegistered? {
            return Failed(BufferFailure(data.error));
          }
          // The queue is empty: an essential input waits in its blocking get,
          // an inessential one takes the documented fallback.
          if b.essential {
            return Blocked(b.bufferName, result);
          }
          result := result[b.inputName := None];
        } else {
          result := result[b.inputName := Some(data.value)];
        }
        i := i + 1;
      }
      g := Ready(result);
    }

    /** One iteration of the scheduling loop: gather, transform on the enable
        flag, and dispatch a non-empty output to every output buffer in
        binding order. Blocking puts need room in the output buffers. */
    method RunOnce(info: RouteInfo) returns (o: StepOutcome)
      requires runner.Some? ==> runner.value.Valid()
      requires runner.Some? ==>
                 StepCanDispatch(runner.value.buffers, inputBuffers, outputBuffers, transforms, enabled, name, info)
      modifies if runner.Some? then {runner.value} else {}
      ensures runner.None? ==> o == Crashed(NotBoundToRunner)
      ensures runner.Some? ==>
                runner.value.Valid() &&
                (o, runner.value.buffers) ==
                  Step(old(runner.value.buffers), inputBuffers, outputBuffers, transforms, enabled, name, info)
      ensures Valid() ==> o != Crashed(BypassNotImplemented)
    {
      ghost var reg0 := if runner.Some? then runner.value.buffers else map[];
      var g := GetInputFromBuffer();
      if g.NotReady? {
        return Waiting;
      }
      if g.Blocked? {
        return Stalled(g.on);
      }
      if g.Failed? {
        if runner.Some? {
          FetchFailsOnlyOnBuffers(reg0, inputBuffers, Defaults(inputBuffers));
        }
        return Crashed(g.err);
      }
      var mgr := runner.value;
      ghost var reg1 := mgr.buffers;
      var ins := g.inputs;

      var out: Option<Message>;
      if !enabled {
        if transforms.bypass.None? {
          return Crashed(BypassNotImplemented);
        }
        out := transforms.bypass.value(ins);
      } else {
        out := transforms.process(ins);
        if out.Some? {
          out := Some(out.value.(route := out.value.route + [RouteRecord(name, info)]));
        }
      }

      if out.Some? {
        var outs := outputBuffers;
        var m := out.value;
        var i := 0;
        assert outs[0..] == outs;
        while i < |outs|
          invariant 0 <= i <= |outs|
          invariant mgr.Valid()
          invariant RoomFor(mgr.buffers, outs[i..])
          invariant DispatchTo(mgr.buffers, outs[i..], m) == DispatchTo(reg1, outs, m)
        {
          assert outs[i..][1..] == outs[i + 1..];
          var target := outs[i];
          if target in mgr.buffers && mgr.buffers[target].Bounded() {
            assert Count(outs[i..], target) >= 1;
          }
          var put := mgr.Put(target, m);
          if put.Fail? {
            return Crashed(BufferFailure(put.error));
          }
          forall n | n in mgr.buffers && mgr.buffers[n].Bounded()
            ensures |mgr.buffers[n].items| + Count(outs[i + 1..], n) <= mgr.buffers[n].maxsize
          {
            assert Count(outs[i..], n) == (if target == n then 1 else 0) + Count(outs[i + 1..], n);
          }
          i := i + 1;
        }
      }
      o := Done(out);
    }
  }
}
