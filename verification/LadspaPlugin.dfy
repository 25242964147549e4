/**
 LADSPAPlugin as the program keeps it: one device, the descriptor it holds from the shared
 index, and its port settings, all changed in place.
 */
module LadspaPlugin {
  import opened Wrappers
  import opened LadspaIndex
  import opened LadspaHolders
  import opened LadspaPorts
  import LadspaInfo

  class Plugin {
    const info: LadspaInfo.Info
    var uniqueId: int
    var held: Option<Descriptor>
    var resetting: bool
    var numInputs: nat
    var numOutputs: nat
    var portId: seq<nat>
    var mins: seq<real>
    var maxs: seq<real>
    var clamps: seq<bool>
    var defaults: seq<real>

    /** This device alone at its index. */
    ghost function AsRack(): Rack
      reads this, info
    {
      Rack(info.View(), [Device(uniqueId, held)])
    }

    ghost function View(): Settings
      reads this
    {
      Settings(numInputs, numOutputs, portId, mins, maxs, clamps, defaults)
    }

    constructor (info: LadspaInfo.Info)
      ensures this.info == info && uniqueId == 0 && held.None? && !resetting && View() == NONE
    {
      this.info, uniqueId, held, resetting := info, 0, None, false;
      numInputs, numOutputs, portId := 0, 0, [];
      mins, maxs, clamps, defaults := [], [], [], [];
    }

    method ClearPlugin()
      requires Indexed(info.View())
      modifies this, info
      ensures held.None? && resetting == old(resetting) && uniqueId == if resetting then old(uniqueId) else 0
      ensures info.View() == Clear(old(AsRack()), 0).index && Indexed(info.View())
      ensures View() == Cleared(old(View()), resetting)
    {
      ClearKeepsIndexed(AsRack(), 0);
      if held.Some? {
        held := None;
        info.DiscardDescriptorByID(uniqueId);
      }
      if !resetting {
        uniqueId := 0;
        numInputs, numOutputs := 0, 0;
      }
      portId, mins, maxs, clamps := [], [], [], [];
      if !resetting {
        defaults := [];
      }
    }

    /** The two counting and the two listing loops of SelectPlugin. */
    method TakePorts(c: Contents)
      modifies this`portId, this`numInputs, this`numOutputs
      ensures View() == Selected(old(View()), c, resetting)
    {
      if !resetting {
        CountPorts(c);
      }
      ghost var counts := (numInputs, numOutputs);
      var n := 0;
      while n < |c.ports|
        invariant n <= |c.ports| && portId == old(portId) + Inputs(c.ports, n)
        invariant (numInputs, numOutputs) == counts
      {
        if c.ports[n].input {
          portId := portId + [n];
        }
        n := n + 1;
      }
      ghost var inputs := portId;
      n := 0;
      while n < |c.ports|
        invariant n <= |c.ports| && portId == inputs + Outputs(c.ports, n)
        invariant (numInputs, numOutputs) == counts
      {
        if c.ports[n].output {
          portId := portId + [n];
        }
        n := n + 1;
      }
      assert portId == old(portId) + PortIds(c);
    }

    method CountPorts(c: Contents)
      modifies this`numInputs, this`numOutputs
      ensures numInputs == old(numInputs) + |Inputs(c.ports, |c.ports|)|
      ensures numOutputs == old(numOutputs) + OutputsOnly(c.ports, |c.ports|)
    {
      var i := 0;
      while i < |c.ports|
        invariant i <= |c.ports|
        invariant numInputs == old(numInputs) + |Inputs(c.ports, i)|
        invariant numOutputs == old(numOutputs) + OutputsOnly(c.ports, i)
      {
        if c.ports[i].input {
          numInputs := numInputs + 1;
        } else if c.ports[i].output {
          numOutputs := numOutputs + 1;
        }
        i := i + 1;
      }
    }

    /** `a` is what the system and the plugin answer, `c` what its descriptor says. */
    method SelectPlugin(id: int, sym: Symbols, a: Answers, c: Contents) returns (ok: bool)
      requires Indexed(info.View()) && held.None? && (resetting ==> id == uniqueId)
      modifies this, info
      ensures resetting == old(resetting) && ok == held.Some?
      ensures uniqueId == if ok then id else old(uniqueId)
      ensures ok == CanBeHad(old(info.View()), id, sym, a)
      ensures (info.View(), held) == Chosen(old(info.View()), id, sym, a)
      ensures View() == if ok then Selected(old(View()), c, resetting) else old(View())
    {
      ChosenHad(info.View(), id, sym, a);
      if id == 0 || !a.hosted {
        return false;
      }
      GetKeepsIndexed(info.View(), id, sym, a);
      held := info.GetDescriptorByID(id, sym, a);
      if held.None? {
        return false;
      }
      if !a.instantiates {
        info.DiscardDescriptorByID(id);
        held := None;
        return false;
      }
      TakePorts(c);
      uniqueId := id;
      return true;
    }

    method ResetPortSettings(c: Contents, h: Host)
      requires PortsKnown(View(), c) && held.Some?
      modifies this`mins, this`maxs, this`clamps, this`defaults
      ensures View() == WithSettings(old(View()), c, h, resetting)
    {
      if resetting && |defaults| > numInputs {
        defaults := defaults[..numInputs];
      }
      var n := 0;
      while n < numInputs && n < |portId|
        invariant PortsKnown(View(), c)
        invariant PushFrom(View(), c, h, n, resetting) == WithSettings(old(View()), c, h, resetting)
      {
        PushPort(c, h, n);
        n := n + 1;
      }
    }

    method PushPort(c: Contents, h: Host, n: nat)
      requires n < |portId| && PortsKnown(View(), c)
      modifies this`mins, this`maxs, this`clamps, this`defaults
      ensures View() == Pushed(old(View()), c, h, n, resetting)
    {
      var min, max, def := -1.0, 1.0, 0.0;
      var p := portId[n];
      assert KnownPort(c, p);
      if c.hints.Some? {
        min, max, def := MinOf(c.hints.value[p], h), MaxOf(c.hints.value[p], h), DefaultOf(c.hints.value[p], h);
      }
      mins, maxs, clamps := mins + [min], maxs + [max], clamps + [true];
      if !resetting || n >= |defaults| {
        defaults := defaults + [def];
      }
    }

    /** The first two steps of an update. */
    method ClearAndSelect(id: int, sym: Symbols, a: Answers, c: Contents) returns (ok: bool)
      requires Indexed(info.View()) && Readable(c) && (resetting ==> id == uniqueId)
      modifies this, info
      ensures resetting == old(resetting) && ok == held.Some?
      ensures uniqueId == if ok || resetting then id else 0
      ensures Rack(info.View(), [Device(id, held)]) == Choose(old(AsRack()), 0, id, sym, a)
      ensures var s := Cleared(old(View()), resetting); View() == if ok then Selected(s, c, resetting) else s
    {
      ghost var r := AsRack();
      ClearKeepsIndexed(r, 0);
      ClearPlugin();
      ok := SelectPlugin(id, sym, a, c);
    }

    /** The index and the id after an update are those of choosing the plugin on a rack; the
        settings are the new ones, or cleared when the plugin cannot be had. */
    method UpdatePlugin(id: int, sym: Symbols, a: Answers, c: Contents, h: Host) returns (ok: bool)
      requires Indexed(info.View()) && Readable(c) && (resetting ==> id == uniqueId)
      modifies this, info
      ensures AsRack() == Choose(old(AsRack()), 0, id, sym, a) && ok == held.Some?
      ensures View() == if ok then Updated(old(View()), c, h, old(resetting)) else Cleared(old(View()), old(resetting))
      ensures resetting == (ok && old(resetting))
    {
      SelectedKnown(Cleared(View(), resetting), c, resetting);
      ok := ClearAndSelect(id, sym, a, c);
      if ok {
        ResetPortSettings(c, h);
        return;
      }
      resetting := false;
      if id != 0 {
        uniqueId := id;
      }
    }

    method Reset(sym: Symbols, a: Answers, c: Contents, h: Host)
      requires Indexed(info.View()) && Readable(c)
      modifies this, info
      ensures AsRack() == Choose(old(AsRack()), 0, old(uniqueId), sym, a) && !resetting
      ensures View() == if held.Some? then Updated(old(View()), c, h, true) else Cleared(old(View()), true)
    {
      resetting := true;
      var ok := UpdatePlugin(uniqueId, sym, a, c, h);
      resetting := false;
    }
  }
}
