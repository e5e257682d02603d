/** The event bus: an ordered registry of plugins. Registering appends a
    plugin; dispatching an event keeps the plugins that accept it, in
    registration order, and collects the result of each one's handler. */
module Bus {
  import opened Events
  import opened Plugins

  /** The plugins of `ps` that accept `e`, in their registration order: the
      filter step of a dispatch. */
  function Select(ps: seq<Plugin>, e: Event): (r: seq<Plugin>)
    ensures |r| <= |ps|
    ensures forall k :: 0 <= k < |r| ==> Accepts(r[k], e)
  {
    if |ps| == 0 then []
    else (if Accepts(ps[0], e) then [ps[0]] else []) + Select(ps[1..], e)
  }

  /** A dispatch over the registry `ps`: one handler result per selected
      plugin, in the order of selection (filter, then map). */
  function DispatchOver(ps: seq<Plugin>, e: Event): seq<EventResult>
  {
    var selected := Select(ps, e);
    seq(|selected|, k requires 0 <= k < |selected| => Handle(selected[k], e))
  }

  /** The names of the plugins in `ps`, in registration order. */
  function NamesOf(ps: seq<Plugin>): seq<string>
  {
    seq(|ps|, i requires 0 <= i < |ps| => Name(ps[i]))
  }

  /** The number of plugins in `ps` that accept `e`. */
  function Count(ps: seq<Plugin>, e: Event): (n: nat)
    ensures n <= |ps|
  {
    if |ps| == 0 then 0
    else (if Accepts(ps[0], e) then 1 else 0) + Count(ps[1..], e)
  }

  /** The positions, from `lo` on, of the plugins of `ps` that accept `e`:
      strictly increasing, each one accepting, and none missing. It is the
      order in which a dispatch calls the handlers. */
  ghost function AcceptedFrom(ps: seq<Plugin>, e: Event, lo: nat): (idx: seq<nat>)
    requires lo <= |ps|
    ensures forall k :: 0 <= k < |idx| ==> lo <= idx[k] < |ps| && Accepts(ps[idx[k]], e)
    ensures forall k, l :: 0 <= k < l < |idx| ==> idx[k] < idx[l]
    ensures forall i :: lo <= i < |ps| && Accepts(ps[i], e) ==> i in idx
    decreases |ps| - lo
  {
    if lo == |ps| then []
    else (if Accepts(ps[lo], e) then [lo] else []) + AcceptedFrom(ps, e, lo + 1)
  }

  /** The positions of all plugins of `ps` that accept `e`, in increasing order. */
  ghost function Accepted(ps: seq<Plugin>, e: Event): seq<nat>
  {
    AcceptedFrom(ps, e, 0)
  }

  /** The filter step keeps exactly the plugins at the accepted positions,
      in the same order. */
  lemma {:induction false} SelectFollowsAccepted(ps: seq<Plugin>, e: Event, lo: nat)
    requires lo <= |ps|
    ensures |Select(ps[lo..], e)| == |AcceptedFrom(ps, e, lo)|
    ensures forall k :: 0 <= k < |Select(ps[lo..], e)| ==>
              Select(ps[lo..], e)[k] == ps[AcceptedFrom(ps, e, lo)[k]]
    decreases |ps| - lo
  {
    if lo < |ps| {
      assert ps[lo..][0] == ps[lo];
      assert ps[lo..][1..] == ps[lo + 1..];
      SelectFollowsAccepted(ps, e, lo + 1);
    }
  }

  /** Dispatch order: the k-th result of a dispatch is what the handler of
      the k-th accepting plugin (in registration order) returns, and there
      is one result per accepting plugin. Plugins that do not accept the
      event contribute nothing. */
  lemma DispatchFollowsAccepted(ps: seq<Plugin>, e: Event)
    ensures |DispatchOver(ps, e)| == |Accepted(ps, e)|
    ensures forall k :: 0 <= k < |DispatchOver(ps, e)| ==>
              DispatchOver(ps, e)[k] == Handle(ps[Accepted(ps, e)[k]], e)
  {
    SelectFollowsAccepted(ps, e, 0);
    assert ps[0..] == ps;
  }

  /** Dispatch length: a dispatch returns as many results as there are
      registered plugins that accept the event. */
  lemma {:induction false} DispatchLength(ps: seq<Plugin>, e: Event)
    ensures |DispatchOver(ps, e)| == Count(ps, e)
    ensures |DispatchOver(ps, e)| <= |ps|
  {
    if |ps| > 0 {
      DispatchLength(ps[1..], e);
    }
  }

  /** The recursive count of accepting plugins and the list of accepted
      positions describe the same number. */
  lemma CountIsAccepted(ps: seq<Plugin>, e: Event)
    ensures Count(ps, e) == |Accepted(ps, e)|
  {
    DispatchLength(ps, e);
    DispatchFollowsAccepted(ps, e);
  }

  /** Dispatching over two registries one after the other gives the results
      of each, the first registry's results first. */
  lemma {:induction false} DispatchConcat(ps: seq<Plugin>, qs: seq<Plugin>, e: Event)
    ensures DispatchOver(ps + qs, e) == DispatchOver(ps, e) + DispatchOver(qs, e)
  {
    SelectConcat(ps, qs, e);
  }

  lemma {:induction false} SelectConcat(ps: seq<Plugin>, qs: seq<Plugin>, e: Event)
    ensures Select(ps + qs, e) == Select(ps, e) + Select(qs, e)
  {
    if |ps| == 0 {
      assert ps + qs == qs;
    } else {
      assert (ps + qs)[0] == ps[0];
      assert (ps + qs)[1..] == ps[1..] + qs;
      SelectConcat(ps[1..], qs, e);
    }
  }

  /** Appending one plugin to the registry adds at most one result, at the
      end: the new plugin's own result when it accepts the event. */
  lemma DispatchAppend(ps: seq<Plugin>, p: Plugin, e: Event)
    ensures DispatchOver(ps + [p], e) ==
            DispatchOver(ps, e) + (if Accepts(p, e) then [Handle(p, e)] else [])
  {
    DispatchConcat(ps, [p], e);
    assert [p][1..] == [];
    assert Select([p], e) == if Accepts(p, e) then [p] else [];
  }

  /** Appending one plugin to the registry appends its name to the listing. */
  lemma NamesAppend(ps: seq<Plugin>, p: Plugin)
    ensures NamesOf(ps + [p]) == NamesOf(ps) + [Name(p)]
  {
  }

  /** When every plugin accepts the event (for instance, every plugin keeps
      the default filter), every plugin gets a result slot, in order. */
  lemma {:induction false} DispatchAllAccepting(ps: seq<Plugin>, e: Event)
    requires forall i :: 0 <= i < |ps| ==> Accepts(ps[i], e)
    ensures |DispatchOver(ps, e)| == |ps|
    ensures forall i :: 0 <= i < |ps| ==> DispatchOver(ps, e)[i] == Handle(ps[i], e)
  {
    SelectAllAccepting(ps, e);
  }

  lemma {:induction false} SelectAllAccepting(ps: seq<Plugin>, e: Event)
    requires forall i :: 0 <= i < |ps| ==> Accepts(ps[i], e)
    ensures Select(ps, e) == ps
  {
    if |ps| > 0 {
      assert forall i :: 0 <= i < |ps[1..]| ==> Accepts(ps[1..][i], e) by {
        forall i | 0 <= i < |ps[1..]| ensures Accepts(ps[1..][i], e) {
          assert ps[1..][i] == ps[i + 1];
        }
      }
      SelectAllAccepting(ps[1..], e);
    }
  }

  /** When no plugin accepts the event, a dispatch returns no result. */
  lemma {:induction false} DispatchNoneAccepting(ps: seq<Plugin>, e: Event)
    requires forall i :: 0 <= i < |ps| ==> !Accepts(ps[i], e)
    ensures DispatchOver(ps, e) == []
  {
    DispatchLength(ps, e);
    CountNoneAccepting(ps, e);
  }

  lemma {:induction false} CountNoneAccepting(ps: seq<Plugin>, e: Event)
    requires forall i :: 0 <= i < |ps| ==> !Accepts(ps[i], e)
    ensures Count(ps, e) == 0
  {
    if |ps| > 0 {
      assert forall i :: 0 <= i < |ps[1..]| ==> !Accepts(ps[1..][i], e) by {
        forall i | 0 <= i < |ps[1..]| ensures !Accepts(ps[1..][i], e) {
          assert ps[1..][i] == ps[i + 1];
        }
      }
      CountNoneAccepting(ps[1..], e);
    }
  }

  /** The bus. Its only state is the ordered registry of plugins; only
      `Register` changes it, and only by appending. */
  class EventBus {
    var plugins: seq<Plugin>

    /** An empty bus: no plugin is registered, so no name is listed and a
        dispatch of any event returns no result. */
    constructor ()
      ensures plugins == []
      ensures PluginNames() == []
      ensures forall e :: Dispatch(e) == []
    {
      plugins := [];
    }

    /** Appends a plugin to the registry. Earlier plugins keep their places;
        a name already present may be registered again. */
    method Register(p: Plugin)
      modifies this
      ensures plugins == old(plugins) + [p]
      ensures PluginNames() == old(PluginNames()) + [Name(p)]
      ensures forall e :: Dispatch(e) ==
                old(Dispatch(e)) + (if Accepts(p, e) then [Handle(p, e)] else [])
    {
      ghost var before := plugins;
      plugins := plugins + [p];
      NamesAppend(before, p);
      forall e
        ensures DispatchOver(plugins, e) ==
                DispatchOver(before, e) + (if Accepts(p, e) then [Handle(p, e)] else [])
      {
        DispatchAppend(before, p, e);
      }
    }

    /** Dispatches an event: one result per registered plugin that accepts
        it, in registration order, each one that plugin's handler result. */
    function Dispatch(e: Event): (r: seq<EventResult>)
      reads this
      ensures |r| == Count(plugins, e)
      ensures |r| == |Accepted(plugins, e)|
      ensures forall k :: 0 <= k < |r| ==> r[k] == Handle(plugins[Accepted(plugins, e)[k]], e)
    {
      DispatchLength(plugins, e);
      DispatchFollowsAccepted(plugins, e);
      DispatchOver(plugins, e)
    }

    /** The names of the registered plugins, in registration order,
        duplicates included. */
    function PluginNames(): (r: seq<string>)
      reads this
      ensures |r| == |plugins|
      ensures forall i :: 0 <= i < |r| ==> r[i] == Name(plugins[i])
    {
      NamesOf(plugins)
    }
  }
}
