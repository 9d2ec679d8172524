/**
 * `ToolPluginRegistry` (tools/.../ToolPluginRegistry.kt): plugins keyed by id in an
 * insertion-ordered map, with registration that refuses a second plugin of the same id
 * and a discovery pass that registers what it is offered and skips duplicates.
 */
module PluginRegistry {
  import opened Wrappers
  import opened Text

  /** A tool a plugin provides; only its name is visible here. */
  datatype Tool = Tool(name: string)

  /** A `ToolPlugin`: its id, name, description and the tools `getTools()` returns. */
  datatype Plugin = Plugin(id: string, name: string, description: string, tools: seq<Tool>)

  predicate Distinct(xs: seq<string>) {
    forall i, j | 0 <= i < j < |xs| :: xs[i] != xs[j]
  }

  /** The ids of `ps`, in order. */
  function Ids(ps: seq<Plugin>): seq<string> {
    seq(|ps|, i requires 0 <= i < |ps| => ps[i].id)
  }

  /** `xs` without `x`, the rest in the same order. */
  function Without(xs: seq<string>, x: string): (r: seq<string>)
    ensures forall y :: y in r <==> y in xs && y != x
    ensures Distinct(xs) ==> Distinct(r)
    ensures x !in xs ==> r == xs
  {
    if xs == [] then []
    else if xs[0] == x then Without(xs[1..], x)
    else
      var rest := Without(xs[1..], x);
      assert Distinct(xs) ==> xs[0] !in xs[1..];
      [xs[0]] + rest
  }

  /** All tools of `ps`, plugin after plugin (`flatMap { it.getTools() }`). */
  function FlatTools(ps: seq<Plugin>): (r: seq<Tool>)
    ensures forall t :: t in r <==> exists p | p in ps :: t in p.tools
  {
    if ps == [] then []
    else
      var rest := FlatTools(ps[1..]);
      assert forall p | p in ps :: p == ps[0] || p in ps[1..];
      ps[0].tools + rest
  }

  /**
   * The plugins a discovery pass registers, in order, when the ids in `known` are
   * already taken: each offered plugin whose id is not taken yet, earlier ones first.
   */
  function Accepted(known: seq<string>, offered: seq<Plugin>): seq<Plugin>
    decreases |offered|
  {
    if offered == [] then []
    else if offered[0].id in known then Accepted(known, offered[1..])
    else [offered[0]] + Accepted(known + [offered[0].id], offered[1..])
  }

  /** Discovery never registers more plugins than it was offered. */
  lemma {:induction false} AcceptedBounded(known: seq<string>, offered: seq<Plugin>)
    ensures |Accepted(known, offered)| <= |offered|
    decreases |offered|
  {
    if offered != [] {
      if offered[0].id in known {
        AcceptedBounded(known, offered[1..]);
      } else {
        AcceptedBounded(known + [offered[0].id], offered[1..]);
      }
    }
  }

  /** What discovery registers was offered, under an id that was not taken. */
  lemma {:induction false} AcceptedFresh(known: seq<string>, offered: seq<Plugin>)
    ensures forall p | p in Accepted(known, offered) :: p in offered && p.id !in known
    decreases |offered|
  {
    if offered != [] {
      var p := offered[0];
      if p.id in known {
        AcceptedFresh(known, offered[1..]);
      } else {
        var acc := Accepted(known + [p.id], offered[1..]);
        AcceptedFresh(known + [p.id], offered[1..]);
        assert Accepted(known, offered) == [p] + acc;
        assert forall q | q in [p] + acc :: q == p || q in acc;
      }
    }
  }

  /** Discovery registers no id twice. */
  lemma {:induction false} AcceptedDistinct(known: seq<string>, offered: seq<Plugin>)
    ensures Distinct(Ids(Accepted(known, offered)))
    decreases |offered|
  {
    if offered != [] {
      var p := offered[0];
      if p.id in known {
        AcceptedDistinct(known, offered[1..]);
      } else {
        var acc := Accepted(known + [p.id], offered[1..]);
        AcceptedDistinct(known + [p.id], offered[1..]);
        AcceptedFresh(known + [p.id], offered[1..]);
        assert forall q | q in acc :: q.id != p.id;
        var ids := Ids([p] + acc);
        assert ids[0] == p.id && ids[1..] == Ids(acc);
        assert forall j | 0 <= j < |acc| :: ids[j + 1] == acc[j].id && acc[j] in acc;
      }
    }
  }

  /** After discovery every offered id is taken. */
  lemma {:induction false} AcceptedCovers(known: seq<string>, offered: seq<Plugin>)
    ensures forall p | p in offered :: p.id in known || p.id in Ids(Accepted(known, offered))
    decreases |offered|
  {
    if offered != [] {
      var p := offered[0];
      var rest := offered[1..];
      assert forall q | q in offered :: q == p || q in rest;
      if p.id in known {
        AcceptedCovers(known, rest);
      } else {
        var acc := Accepted(known + [p.id], rest);
        AcceptedCovers(known + [p.id], rest);
        assert Ids([p] + acc) == [p.id] + Ids(acc);
      }
    }
  }

  class ToolPluginRegistry {
    /** The registered ids in insertion order: the iteration order of the map. */
    var order: seq<string>
    /** The registered plugins by id. */
    var entries: map<string, Plugin>

    /** Each id once, the order and the map hold the same ids, and each plugin sits under its own id. */
    predicate Valid()
      reads this
    {
      && Distinct(order)
      && (forall k | k in entries :: k in order)
      && (forall k | k in order :: k in entries)
      && (forall k | k in entries :: entries[k].id == k)
    }

    constructor()
      ensures Valid() && order == [] && entries == map[]
    {
      order := [];
      entries := map[];
    }

    /** `getPlugin(id)`: the plugin registered under `id`, or null. */
    function GetPlugin(id: string): (r: Option<Plugin>)
      reads this
      requires Valid()
      ensures r.Some? <==> id in order
      ensures r.Some? ==> r.value.id == id
    {
      if id in entries then Some(entries[id]) else None
    }

    /** `getAllPlugins()`: one plugin per registered id, in insertion order. */
    function GetAllPlugins(): (r: seq<Plugin>)
      reads this
      requires Valid()
      ensures Ids(r) == order
      ensures forall p :: p in r <==> GetPlugin(p.id) == Some(p)
    {
      var r := Values(order, entries);
      assert forall p: Plugin | GetPlugin(p.id) == Some(p) :: p == r[IndexOf(order, p.id)];
      r
    }

    /** `getAllTools()`: the tools of every registered plugin, in registration order. */
    function GetAllTools(): (r: seq<Tool>)
      reads this
      requires Valid()
      ensures r == FlatTools(GetAllPlugins())
      ensures forall t :: t in r <==> exists id | id in order :: t in GetPlugin(id).value.tools
    {
      var all := GetAllPlugins();
      assert forall id | id in order :: GetPlugin(id).value in all;
      FlatTools(all)
    }

    /** `registerPlugin(plugin)`: the error it throws for a taken id, or nothing. */
    method RegisterPlugin(plugin: Plugin) returns (error: Option<string>)
      requires Valid()
      modifies this
      ensures Valid()
      ensures plugin.id in old(order) ==>
                && error == Some("Plugin with ID " + plugin.id + " is already registered")
                && order == old(order) && entries == old(entries)
      ensures plugin.id !in old(order) ==>
                && error == None
                && order == old(order) + [plugin.id]
                && entries == old(entries)[plugin.id := plugin]
    {
      if plugin.id in entries {
        return Some("Plugin with ID " + plugin.id + " is already registered");
      }
      entries := entries[plugin.id := plugin];
      order := order + [plugin.id];
      error := None;
    }

    /** `unregisterPlugin(id)`: true exactly when `id` was registered; afterwards it is not. */
    method UnregisterPlugin(id: string) returns (removed: bool)
      requires Valid()
      modifies this
      ensures Valid()
      ensures removed <==> id in old(order)
      ensures order == Without(old(order), id)
      ensures entries == old(entries) - {id}
      ensures GetPlugin(id) == None
    {
      removed := id in entries;
      entries := entries - {id};
      order := Without(order, id);
    }

    /**
     * `discoverPlugins()` over the plugins the service loader offers: each is registered
     * unless its id is taken; the count of the registered ones is returned.
     */
    method DiscoverPlugins(offered: seq<Plugin>) returns (count: nat)
      requires Valid()
      modifies this
      ensures Valid()
      ensures order == old(order) + Ids(Accepted(old(order), offered))
      ensures count == |Accepted(old(order), offered)|
      ensures entries == old(entries) + ById(Accepted(old(order), offered))
    {
      count := 0;
      ghost var order0, entries0 := order, entries;
      ghost var done: seq<Plugin> := [];
      var i := 0;
      while i < |offered|
        invariant i <= |offered|
        invariant Valid()
        invariant Progress(order0, entries0, offered, i, done, order, entries)
        invariant count == |done|
      {
        var plugin := offered[i];
        ProgressStep(order0, entries0, offered, i, done, order, entries);
        var error := RegisterPlugin(plugin);
        if error == None {
          done := done + [plugin];
          count := count + 1;
        }
        i := i + 1;
      }
      assert offered[i..] == [];
      assert Accepted(order0, offered) == done;
    }
  }

  /** The position of `x` in `xs`. */
  function IndexOf(xs: seq<string>, x: string): (i: nat)
    requires x in xs
    ensures i < |xs| && xs[i] == x
  {
    if xs[0] == x then 0 else 1 + IndexOf(xs[1..], x)
  }

  function Values(order: seq<string>, entries: map<string, Plugin>): (r: seq<Plugin>)
    requires forall k | k in order :: k in entries
    ensures |r| == |order| && forall i | 0 <= i < |order| :: r[i] == entries[order[i]]
  {
    if order == [] then [] else [entries[order[0]]] + Values(order[1..], entries)
  }

  lemma AcceptedStep(known: seq<string>, offered: seq<Plugin>, i: nat)
    requires i < |offered|
    ensures Accepted(known, offered[i..]) ==
              if offered[i].id in known then Accepted(known, offered[i + 1..])
              else [offered[i]] + Accepted(known + [offered[i].id], offered[i + 1..])
  {
    assert offered[i..][0] == offered[i] && offered[i..][1..] == offered[i + 1..];
  }

  lemma IdsSnoc(ps: seq<Plugin>, p: Plugin)
    ensures Ids(ps + [p]) == Ids(ps) + [p.id]
  {
  }

  /** The plugins of `ps` by id; a later plugin replaces an earlier one of the same id. */
  function ById(ps: seq<Plugin>): map<string, Plugin> {
    if ps == [] then map[] else ById(ps[..|ps| - 1])[ps[|ps| - 1].id := ps[|ps| - 1]]
  }

  /** Discovery after `i` offered plugins, of which `done` were registered. */
  ghost predicate Progress(order0: seq<string>, entries0: map<string, Plugin>, offered: seq<Plugin>, i: nat,
                           done: seq<Plugin>, order: seq<string>, entries: map<string, Plugin>)
  {
    && i <= |offered|
    && Accepted(order0, offered) == done + Accepted(order, offered[i..])
    && order == order0 + Ids(done)
    && entries == entries0 + ById(done)
  }

  lemma ProgressStep(order0: seq<string>, entries0: map<string, Plugin>, offered: seq<Plugin>, i: nat,
                     done: seq<Plugin>, order: seq<string>, entries: map<string, Plugin>)
    requires i < |offered| && Progress(order0, entries0, offered, i, done, order, entries)
    ensures offered[i].id in order ==> Progress(order0, entries0, offered, i + 1, done, order, entries)
    ensures offered[i].id !in order ==>
              Progress(order0, entries0, offered, i + 1, done + [offered[i]],
                       order + [offered[i].id], entries[offered[i].id := offered[i]])
  {
    var p := offered[i];
    AcceptedStep(order, offered, i);
    if p.id !in order {
      var rest := Accepted(order + [p.id], offered[i + 1..]);
      assert Accepted(order0, offered) == (done + [p]) + rest by {
        assert done + ([p] + rest) == (done + [p]) + rest;
      }
      assert order + [p.id] == order0 + Ids(done + [p]) by {
        IdsSnoc(done, p);
      }
      assert entries[p.id := p] == entries0 + ById(done + [p]) by {
        assert (done + [p])[..|done|] == done;
        assert ById(done + [p]) == ById(done)[p.id := p];
        UnionUpdatePlugin(entries0, ById(done), p.id, p);
      }
    }
  }

  lemma UnionUpdatePlugin(m: map<string, Plugin>, e: map<string, Plugin>, k: string, v: Plugin)
    ensures (m + e)[k := v] == m + e[k := v]
  {
  }
}
