// The three model (schema) registries: the key-filtering registry of the
// modules generation (src/modules/Registry/ModelRegistry.ts), the interning
// registry (src/Model/ModelRegistry.ts) and the router's plain model table
// (src/modules/Router/RouterModelRegistry.ts). A schema is abstract: its JSON
// text, the token of its `~standard.validate` function and its vendor name.

module Schemas {
  /** A Standard Schema value as the registries see it. */
  datatype Schema = Schema(json: string, validate: nat, vendor: string)
}

module ModelKeys {
  import opened Wrappers
  import opened Schemas

  /** What is kept of a schema: its `~standard` validate function and vendor. */
  datatype Stored = Stored(validate: nat, vendor: string)

  /** The four keys `add` accepts. */
  predicate IsModelKey(k: string)
  {
    k == "body" || k == "search" || k == "params" || k == "response"
  }

  /** The entry `add` builds from `Object.entries(model)`: accepted keys only, each a later one overwriting. */
  function EntryOf(model: seq<(string, Schema)>): map<string, Stored>
  {
    if model == [] then map[]
    else
      var init := EntryOf(model[..|model| - 1]);
      var last := model[|model| - 1];
      if IsModelKey(last.0) then init[last.0 := Stored(last.1.validate, last.1.vendor)] else init
  }

  /** The entry holds exactly the accepted keys the model mentions; every other key is silently ignored. */
  lemma {:induction false} EntryKeys(model: seq<(string, Schema)>)
    ensures forall k :: k in EntryOf(model) <==> IsModelKey(k) && exists i :: 0 <= i < |model| && model[i].0 == k
  {
    if model != [] {
      var init := model[..|model| - 1];
      EntryKeys(init);
      forall k | IsModelKey(k) && (exists i :: 0 <= i < |model| && model[i].0 == k)
        ensures k in EntryOf(model)
      {
        var i :| 0 <= i < |model| && model[i].0 == k;
        if i < |init| {
          assert init[i].0 == k;
        }
      }
      forall k | k in EntryOf(model)
        ensures exists i :: 0 <= i < |model| && model[i].0 == k
      {
        if k != model[|model| - 1].0 {
          var i :| 0 <= i < |init| && init[i].0 == k;
          assert model[i].0 == k;
        }
      }
    }
  }

  /** An accepted key stores the validate function and vendor of its last occurrence. */
  lemma {:induction false} EntryValueIsLast(model: seq<(string, Schema)>, i: nat)
    requires i < |model| && IsModelKey(model[i].0)
    requires forall j :: i < j < |model| ==> model[j].0 != model[i].0
    ensures model[i].0 in EntryOf(model)
    ensures EntryOf(model)[model[i].0] == Stored(model[i].1.validate, model[i].1.vendor)
  {
    if i < |model| - 1 {
      var init := model[..|model| - 1];
      EntryValueIsLast(init, i);
    }
  }

  /** The loop of `add` that fills the entry. */
  method BuildEntry(model: seq<(string, Schema)>) returns (entry: map<string, Stored>)
    ensures entry == EntryOf(model)
  {
    entry := map[];
    for i := 0 to |model|
      invariant entry == EntryOf(model[..i])
    {
      assert model[..i + 1][..i] == model[..i];
      var (k, v) := model[i];
      if IsModelKey(k) {
        entry := entry[k := Stored(v.validate, v.vendor)];
      }
    }
    assert model[..|model|] == model;
  }

  function AddSpec(data: map<string, map<string, Stored>>, routeId: string, model: seq<(string, Schema)>): map<string, map<string, Stored>>
  {
    data[routeId := EntryOf(model)]
  }

  /** `find(routeId)`: the stored entry, or undefined. */
  function FindSpec(data: map<string, map<string, Stored>>, routeId: string): (r: Option<map<string, Stored>>)
    ensures r.Some? <==> routeId in data
  {
    if routeId in data then Some(data[routeId]) else None
  }

  /** `add` replaces the whole entry of its route id, and no other. */
  lemma FindAfterAdd(data: map<string, map<string, Stored>>, routeId: string, other: string, model: seq<(string, Schema)>)
    ensures FindSpec(AddSpec(data, routeId, model), other) ==
            if other == routeId then Some(EntryOf(model)) else FindSpec(data, other)
  {
  }

  /** A second `add` for the same id forgets every key of the first. */
  lemma SecondAddForgetsFirst(data: map<string, map<string, Stored>>, routeId: string, first: seq<(string, Schema)>, second: seq<(string, Schema)>)
    ensures FindSpec(AddSpec(AddSpec(data, routeId, first), routeId, second), routeId) == Some(EntryOf(second))
  {
  }

  class ModelRegistry {
    var data: map<string, map<string, Stored>>

    constructor()
      ensures data == map[]
    {
      data := map[];
    }

    method Add(routeId: string, model: seq<(string, Schema)>)
      modifies this
      ensures data == AddSpec(old(data), routeId, model)
    {
      var entry := BuildEntry(model);
      data := data[routeId := entry];
    }

    function Find(routeId: string): (r: Option<map<string, Stored>>)
      reads this
      ensures r == FindSpec(data, routeId)
    {
      if routeId in data then Some(data[routeId]) else None
    }
  }
}

module ModelIntern {
  import opened Wrappers
  import opened Strings
  import opened Schemas

  /** `strRemoveWhitespace`: every white-space character removed, the rest kept in order. */
  function RemoveWhitespace(s: string): (r: string)
    ensures |r| <= |s|
    ensures forall i :: 0 <= i < |r| ==> !IsSpace(r[i])
    ensures (forall i :: 0 <= i < |s| ==> !IsSpace(s[i])) ==> r == s
  {
    if s == [] then ""
    else if IsSpace(s[0]) then RemoveWhitespace(s[1..])
    else [s[0]] + RemoveWhitespace(s[1..])
  }

  lemma RemoveWhitespaceIdempotent(s: string)
    ensures RemoveWhitespace(RemoveWhitespace(s)) == RemoveWhitespace(s)
  {
  }

  /** The intern key of a schema: its JSON text without white space. */
  function InternKey(schema: Schema): string
  {
    RemoveWhitespace(schema.json)
  }

  /** `internValidator(schema)`: the validator first stored for the key, storing this schema's when there is none. */
  function Intern(intern: map<string, nat>, schema: Schema): (r: (nat, map<string, nat>))
    ensures InternKey(schema) in r.1 && r.1[InternKey(schema)] == r.0
    ensures forall k :: k in intern ==> k in r.1 && r.1[k] == intern[k]
    ensures r.1.Keys == intern.Keys + {InternKey(schema)}
  {
    var key := InternKey(schema);
    if key in intern then (intern[key], intern) else (schema.validate, intern[key := schema.validate])
  }

  /**
   * Two schemas whose JSON differs only in white space share one validator:
   * the one interned first.
   */
  lemma SameTextSharesValidator(intern: map<string, nat>, a: Schema, b: Schema)
    requires InternKey(a) == InternKey(b)
    ensures Intern(Intern(intern, a).1, b).0 == Intern(intern, a).0
    ensures Intern(Intern(intern, a).1, b).1 == Intern(intern, a).1
  {
  }

  /** A fresh key gets the schema's own validator. */
  lemma FreshKeyStoresOwn(intern: map<string, nat>, schema: Schema)
    requires InternKey(schema) !in intern
    ensures Intern(intern, schema).0 == schema.validate
  {
  }

  /** A route model: the schemas under its keys, each possibly absent. */
  datatype RouteModel = RouteModel(body: Option<Schema>, params: Option<Schema>, search: Option<Schema>, response: Option<Schema>)

  /** The stored entry: interned validators for body, params and search only. */
  datatype Entry = Entry(body: Option<nat>, params: Option<nat>, search: Option<nat>)

  function InternOpt(intern: map<string, nat>, schema: Option<Schema>): (r: (Option<nat>, map<string, nat>))
    ensures r.0.Some? <==> schema.Some?
    ensures schema.None? ==> r.1 == intern
  {
    if schema.Some? then var (v, m) := Intern(intern, schema.value); (Some(v), m) else (None, intern)
  }

  /** `add(routeId, model)`: body, then params, then search are interned; the entry replaces any earlier one. */
  function AddEntry(intern: map<string, nat>, model: RouteModel): (r: (Entry, map<string, nat>))
  {
    var (b, m1) := InternOpt(intern, model.body);
    var (p, m2) := InternOpt(m1, model.params);
    var (s, m3) := InternOpt(m2, model.search);
    (Entry(b, p, s), m3)
  }

  /**
   * Only body, params and search are kept, each exactly when the model has it;
   * the response schema is dropped and never interned.
   */
  lemma EntryMirrorsModel(intern: map<string, nat>, model: RouteModel)
    ensures var e := AddEntry(intern, model).0;
      (e.body.Some? <==> model.body.Some?) && (e.params.Some? <==> model.params.Some?) &&
      (e.search.Some? <==> model.search.Some?)
    ensures model.body.None? && model.params.None? && model.search.None? ==> AddEntry(intern, model).1 == intern
  {
  }

  /** Interning never forgets or changes a stored validator. */
  lemma AddKeepsInterned(intern: map<string, nat>, model: RouteModel)
    ensures forall k :: k in intern ==> k in AddEntry(intern, model).1 && AddEntry(intern, model).1[k] == intern[k]
  {
  }

  /** A body schema whose text is already interned reuses the stored validator. */
  lemma BodyReusesInterned(intern: map<string, nat>, model: RouteModel)
    requires model.body.Some? && InternKey(model.body.value) in intern
    ensures AddEntry(intern, model).0.body == Some(intern[InternKey(model.body.value)])
  {
  }

  /** Params and search with equal text share the validator interned for params. */
  lemma ParamsAndSearchShare(intern: map<string, nat>, model: RouteModel)
    requires model.params.Some? && model.search.Some?
    requires InternKey(model.params.value) == InternKey(model.search.value)
    ensures AddEntry(intern, model).0.search == AddEntry(intern, model).0.params
  {
    var (b, m1) := InternOpt(intern, model.body);
    SameTextSharesValidator(m1, model.params.value, model.search.value);
  }

  /** Interning a schema whose key already holds `v` gives `v` back and stores nothing. */
  lemma InternOptStored(intern: map<string, nat>, schema: Option<Schema>, v: Option<nat>)
    requires schema.Some? ==> InternKey(schema.value) in intern && v == Some(intern[InternKey(schema.value)])
    requires schema.None? ==> v.None?
    ensures InternOpt(intern, schema) == (v, intern)
  {
  }

  /**
   * Adding the same model a second time is the same as adding it once: every
   * key it interned is found again with the validator stored the first time.
   */
  lemma {:induction false} AddEntryTwice(intern: map<string, nat>, model: RouteModel)
    ensures AddEntry(AddEntry(intern, model).1, model) == AddEntry(intern, model)
  {
    var (b, m1) := InternOpt(intern, model.body);
    var (p, m2) := InternOpt(m1, model.params);
    var (s, m3) := InternOpt(m2, model.search);
    InternOptStored(m3, model.body, b);
    InternOptStored(m3, model.params, p);
    InternOptStored(m3, model.search, s);
  }

  class ModelRegistry {
    var data: map<string, Entry>
    var internMap: map<string, nat>

    constructor()
      ensures data == map[] && internMap == map[]
    {
      data := map[];
      internMap := map[];
    }

    method InternValidator(schema: Schema) returns (v: nat)
      modifies this`internMap
      ensures (v, internMap) == Intern(old(internMap), schema)
    {
      var key := RemoveWhitespace(schema.json);
      if key in internMap {
        return internMap[key];
      }
      internMap := internMap[key := schema.validate];
      v := schema.validate;
    }

    method Add(routeId: string, model: RouteModel)
      modifies this
      ensures data == old(data)[routeId := AddEntry(old(internMap), model).0]
      ensures internMap == AddEntry(old(internMap), model).1
    {
      var body: Option<nat> := None;
      var params: Option<nat> := None;
      var search: Option<nat> := None;
      if model.body.Some? {
        var v := InternValidator(model.body.value);
        body := Some(v);
      }
      if model.params.Some? {
        var v := InternValidator(model.params.value);
        params := Some(v);
      }
      if model.search.Some? {
        var v := InternValidator(model.search.value);
        search := Some(v);
      }
      data := data[routeId := Entry(body, params, search)];
    }

    /** `find(routeId)`: the entry, or undefined. */
    function Find(routeId: string): (r: Option<Entry>)
      reads this
      ensures r.Some? <==> routeId in data
      ensures r.Some? ==> r.value == data[routeId]
    {
      if routeId in data then Some(data[routeId]) else None
    }
  }
}

module RouterModels {
  import opened Wrappers

  /** `addModel(routeId, model?)`: an absent model changes nothing; a present one overwrites. */
  function AddModelSpec(models: map<string, nat>, routeId: string, model: Option<nat>): map<string, nat>
  {
    if model.Some? then models[routeId := model.value] else models
  }

  function FindModelSpec(models: map<string, nat>, routeId: string): (r: Option<nat>)
    ensures r.Some? <==> routeId in models
  {
    if routeId in models then Some(models[routeId]) else None
  }

  /** `findModel` gives what was last stored for the id; other ids are unaffected. */
  lemma FindModelAfterAdd(models: map<string, nat>, routeId: string, other: string, model: Option<nat>)
    ensures FindModelSpec(AddModelSpec(models, routeId, model), other) ==
            if other == routeId && model.Some? then model else FindModelSpec(models, other)
  {
  }

  class RouterModelRegistry {
    var models: map<string, nat>

    constructor()
      ensures models == map[]
    {
      models := map[];
    }

    method AddModel(routeId: string, model: Option<nat>)
      modifies this
      ensures models == AddModelSpec(old(models), routeId, model)
    {
      if model.Some? {
        models := models[routeId := model.value];
      }
    }

    function FindModel(routeId: string): (r: Option<nat>)
      reads this
      ensures r == FindModelSpec(models, routeId)
    {
      if routeId in models then Some(models[routeId]) else None
    }
  }
}
