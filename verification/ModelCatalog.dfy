/** The chat model catalogue: allowlists per provider, their union, routing, and the public rows. */
module ModelCatalog {
  import opened Base
  import opened Providers

  datatype Entry = Entry(id: string, display: string)

  /** A dictionary in insertion order. */
  type Dict = seq<Entry>

  datatype Row = Row(id: string, display: string, isDefault: bool, provider: Provider)

  /** Default model, built-in names and the operator's allowlist of one provider; a value that is not a
      string is `None`. */
  datatype Allowlist = Allowlist(model: string, builtin: Dict, env: seq<(string, Option<string>)>)

  datatype Models = Models(openai: Allowlist, anthropic: Allowlist)
  {
    function Of(p: Provider): Allowlist {
      if p == OpenAI then openai else anthropic
    }
  }

  predicate Has(d: Dict, id: string) {
    exists k :: 0 <= k < |d| && d[k].id == id
  }

  function Find(d: Dict, id: string): (r: Option<string>)
    ensures r.Some? <==> Has(d, id)
  {
    if d == [] then None
    else if d[0].id == id then Some(d[0].display)
    else
      assert Has(d[1..], id) ==> Has(d, id) by {
        if k :| 0 <= k < |d[1..]| && d[1..][k].id == id { assert d[k + 1].id == id; }
      }
      assert Has(d, id) ==> Has(d[1..], id) by {
        if k :| 0 <= k < |d| && d[k].id == id { assert d[1..][k - 1].id == id; }
      }
      Find(d[1..], id)
  }

  function FindOr(d: Dict, id: string, fallback: string): string {
    var found := Find(d, id);
    if found.Some? then found.value else fallback
  }

  /** `d[id] = display`: a known key keeps its place. */
  function Put(d: Dict, id: string, display: string): Dict {
    if d == [] then [Entry(id, display)]
    else if d[0].id == id then [Entry(id, display)] + d[1..]
    else [d[0]] + Put(d[1..], id, display)
  }

  function Accept(d: Dict, raw: (string, Option<string>)): Dict {
    if Strip(raw.0) == "" || raw.1.None? || raw.1.value == "" then d else Put(d, Strip(raw.0), raw.1.value)
  }

  function Parsed(env: seq<(string, Option<string>)>): Dict {
    if env == [] then [] else Accept(Parsed(env[..|env| - 1]), env[|env| - 1])
  }

  function AddMissing(d: Dict, entries: Dict): Dict {
    if entries == [] then d
    else
      var before := AddMissing(d, entries[..|entries| - 1]);
      var e := entries[|entries| - 1];
      if Has(before, e.id) then before else before + [e]
  }

  function Renamed(entries: Dict, names: Dict): Dict {
    seq(|entries|, i requires 0 <= i < |entries| => Entry(entries[i].id, FindOr(names, entries[i].id, entries[i].display)))
  }

  function AllowedSpec(a: Allowlist): Dict {
    var parsed := Parsed(a.env);
    var first := Entry(a.model, FindOr(parsed, a.model, FindOr(a.builtin, a.model, a.model)));
    AddMissing(AddMissing([first], Renamed(a.builtin, parsed)), parsed)
  }

  method AllowedModelsFor(a: Allowlist) returns (merged: Dict)
    ensures merged == AllowedSpec(a)
  {
    var parsed: Dict := [];
    for i := 0 to |a.env|
      invariant parsed == Parsed(a.env[..i])
    {
      assert a.env[..i + 1][..i] == a.env[..i];
      var key := Strip(a.env[i].0);
      if key == "" {
        continue;
      }
      if a.env[i].1.None? || a.env[i].1.value == "" {
        continue;
      }
      parsed := Put(parsed, key, a.env[i].1.value);
    }
    assert a.env[..|a.env|] == a.env;
    var defaultName := a.model;
    if Has(parsed, a.model) {
      defaultName := Find(parsed, a.model).value;
    } else if Has(a.builtin, a.model) {
      defaultName := Find(a.builtin, a.model).value;
    }
    var start := [Entry(a.model, defaultName)];
    merged := start;
    ghost var renamed := Renamed(a.builtin, parsed);
    for i := 0 to |a.builtin|
      invariant merged == AddMissing(start, renamed[..i])
    {
      assert renamed[..i + 1][..i] == renamed[..i];
      var e := a.builtin[i];
      if Has(merged, e.id) {
        continue;
      }
      merged := merged + [Entry(e.id, FindOr(parsed, e.id, e.display))];
    }
    assert renamed[..|a.builtin|] == renamed;
    var base := merged;
    for i := 0 to |parsed|
      invariant merged == AddMissing(base, parsed[..i])
    {
      assert parsed[..i + 1][..i] == parsed[..i];
      if !Has(merged, parsed[i].id) {
        merged := merged + [parsed[i]];
      }
    }
    assert parsed[..|parsed|] == parsed;
  }

  /** The union over a list of providers; the first provider of an id wins. */
  function UnionOf(m: Models, providers: seq<Provider>): Dict {
    if providers == [] then []
    else AddMissing(UnionOf(m, providers[..|providers| - 1]), AllowedSpec(m.Of(providers[|providers| - 1])))
  }

  function UnionSpec(cfg: Settings, m: Models): Dict {
    UnionOf(m, CreditsProvidersSpec(cfg))
  }

  method AllowedModelsUnion(cfg: Settings, m: Models) returns (merged: Dict)
    ensures merged == UnionSpec(cfg, m)
  {
    merged := [];
    var providers := CreditsProviders(cfg);
    for i := 0 to |providers|
      invariant merged == UnionOf(m, providers[..i])
    {
      assert providers[..i + 1][..i] == providers[..i];
      var before := merged;
      var allowed := AllowedModelsFor(m.Of(providers[i]));
      for j := 0 to |allowed|
        invariant merged == AddMissing(before, allowed[..j])
      {
        assert allowed[..j + 1][..j] == allowed[..j];
        if !Has(merged, allowed[j].id) {
          merged := merged + [allowed[j]];
        }
      }
      assert allowed[..|allowed|] == allowed;
    }
    assert providers[..|providers|] == providers;
  }

  // ----- Routing -----

  /** The first provider of the list that knows the model. */
  function FirstWith(m: Models, providers: seq<Provider>, model: string, otherwise: Provider): Provider {
    if providers == [] then otherwise
    else if Has(AllowedSpec(m.Of(providers[0])), model) then providers[0]
    else FirstWith(m, providers[1..], model, otherwise)
  }

  function RouteSpec(cfg: Settings, m: Models, model: string): Provider {
    FirstWith(m, CreditsProvidersSpec(cfg), model, Active(cfg))
  }

  method CreditsProviderForModel(cfg: Settings, m: Models, model: Option<string>) returns (p: Provider)
    ensures p == if model.None? then Active(cfg) else RouteSpec(cfg, m, model.value)
  {
    if model.None? {
      return Active(cfg);
    }
    var providers := CreditsProviders(cfg);
    for i := 0 to |providers|
      invariant FirstWith(m, providers, model.value, Active(cfg)) == FirstWith(m, providers[i..], model.value, Active(cfg))
    {
      var allowed := AllowedModelsFor(m.Of(providers[i]));
      if Has(allowed, model.value) {
        return providers[i];
      }
    }
    return Active(cfg);
  }

  // ----- Public rows -----

  predicate HasRow(rows: seq<Row>, id: string) {
    exists k :: 0 <= k < |rows| && rows[k].id == id
  }

  function AddRows(rows: seq<Row>, allowed: Dict, p: Provider): seq<Row> {
    if allowed == [] then rows
    else
      var before := AddRows(rows, allowed[..|allowed| - 1], p);
      var e := allowed[|allowed| - 1];
      if HasRow(before, e.id) then before else before + [Row(e.id, e.display, false, p)]
  }

  function RowsOf(m: Models, first: Row, providers: seq<Provider>): seq<Row> {
    if providers == [] then [first]
    else
      var p := providers[|providers| - 1];
      AddRows(RowsOf(m, first, providers[..|providers| - 1]), AllowedSpec(m.Of(p)), p)
  }

  function DefaultRow(cfg: Settings, m: Models): Row {
    var a := m.Of(Active(cfg));
    Row(a.model, FindOr(AllowedSpec(a), a.model, a.model), true, Active(cfg))
  }

  function CatalogSpec(cfg: Settings, m: Models): seq<Row> {
    RowsOf(m, DefaultRow(cfg, m), CreditsProvidersSpec(cfg))
  }

  method CatalogModels(cfg: Settings, m: Models) returns (rows: seq<Row>)
    ensures rows == CatalogSpec(cfg, m)
  {
    var providers := CreditsProviders(cfg);
    var active := providers[0];
    hide AllowedSpec, FindOr, CreditsProvidersSpec, Has, HasRow, AddRows;
    var defaultId := m.Of(active).model;
    var activeMap := AllowedModelsFor(m.Of(active));
    rows := [Row(defaultId, FindOr(activeMap, defaultId, defaultId), true, active)];
    HasOneRow(rows[0]);
    var seen := {defaultId};
    for i := 0 to |providers|
      invariant rows == RowsOf(m, DefaultRow(cfg, m), providers[..i])
      invariant forall id :: id in seen <==> HasRow(rows, id)
    {
      assert providers[..i + 1][..i] == providers[..i];
      var before := rows;
      var allowed := AllowedModelsFor(m.Of(providers[i]));
      AddNone(before, providers[i]);
      for j := 0 to |allowed|
        invariant rows == AddRows(before, allowed[..j], providers[i])
        invariant forall id :: id in seen <==> HasRow(rows, id)
      {
        AddOne(before, allowed, j, providers[i]);
        var e := allowed[j];
        if e.id in seen {
          continue;
        }
        HasRowSnoc(rows, Row(e.id, e.display, false, providers[i]));
        seen := seen + {e.id};
        rows := rows + [Row(e.id, e.display, false, providers[i])];
      }
      assert allowed[..|allowed|] == allowed;
    }
    assert providers[..|providers|] == providers;
  }

  lemma AddNone(rows: seq<Row>, p: Provider)
    ensures AddRows(rows, [], p) == rows
  {
  }

  lemma AddOne(rows: seq<Row>, allowed: Dict, j: nat, p: Provider)
    requires j < |allowed|
    ensures var before := AddRows(rows, allowed[..j], p);
            AddRows(rows, allowed[..j + 1], p)
              == before + if HasRow(before, allowed[j].id) then [] else [Row(allowed[j].id, allowed[j].display, false, p)]
  {
    assert allowed[..j + 1][..j] == allowed[..j];
  }

  lemma HasOneRow(row: Row)
    ensures forall id :: HasRow([row], id) <==> id == row.id
  {
    assert [row][0] == row;
  }

  lemma HasRowSnoc(rows: seq<Row>, row: Row)
    ensures forall id :: HasRow(rows + [row], id) <==> HasRow(rows, id) || id == row.id
  {
    assert (rows + [row])[|rows|] == row;
    forall id | HasRow(rows, id) ensures HasRow(rows + [row], id) {
      var k :| 0 <= k < |rows| && rows[k].id == id;
      assert (rows + [row])[k].id == id;
    }
  }

  // ----- Coherence -----

  lemma HasSnoc(d: Dict, e: Entry)
    ensures forall id :: Has(d + [e], id) <==> Has(d, id) || id == e.id
  {
    assert (d + [e])[|d|] == e;
    forall id | Has(d, id) ensures Has(d + [e], id) {
      var k :| 0 <= k < |d| && d[k].id == id;
      assert (d + [e])[k].id == id;
    }
  }

  /** Rows without their flag and provider. */
  function Entries(rows: seq<Row>): Dict {
    seq(|rows|, i requires 0 <= i < |rows| => Entry(rows[i].id, rows[i].display))
  }

  lemma EntriesHave(rows: seq<Row>, id: string)
    ensures Has(Entries(rows), id) <==> HasRow(rows, id)
  {
    if HasRow(rows, id) {
      var k :| 0 <= k < |rows| && rows[k].id == id;
      assert Entries(rows)[k].id == id;
    }
  }

  lemma {:induction false} AddRowsEntries(rows: seq<Row>, allowed: Dict, p: Provider)
    ensures Entries(AddRows(rows, allowed, p)) == AddMissing(Entries(rows), allowed)
    decreases |allowed|
  {
    if allowed != [] {
      AddRowsEntries(rows, allowed[..|allowed| - 1], p);
      EntriesHave(AddRows(rows, allowed[..|allowed| - 1], p), allowed[|allowed| - 1].id);
    }
  }

  /** The head of the first allowlist may be placed before the loop. */
  lemma {:induction false} HeadFirst(entries: Dict)
    requires entries != []
    ensures AddMissing([entries[0]], entries) == AddMissing([], entries)
    ensures Has(AddMissing([], entries), entries[0].id) && AddMissing([], entries)[0] == entries[0]
    decreases |entries|
  {
    if |entries| == 1 {
      assert entries[..0] == [] && entries == [entries[0]];
      assert [entries[0]][0].id == entries[0].id;
    } else {
      HeadFirst(entries[..|entries| - 1]);
      HasSnoc(AddMissing([], entries[..|entries| - 1]), entries[|entries| - 1]);
    }
  }

  lemma {:induction false} AddKeepsHead(d: Dict, entries: Dict)
    requires d != []
    ensures AddMissing(d, entries) != [] && AddMissing(d, entries)[0] == d[0]
    ensures forall id :: Has(AddMissing(d, entries), id) <==> Has(d, id) || Has(entries, id)
    decreases |entries|
  {
    if entries != [] {
      var n := |entries| - 1;
      AddKeepsHead(d, entries[..n]);
      HasSnoc(AddMissing(d, entries[..n]), entries[n]);
      HasSnoc(entries[..n], entries[n]);
      assert entries[..n] + [entries[n]] == entries;
    }
  }

  /** An allowlist starts with its default model, under the name the catalogue gives it. */
  lemma DefaultLeads(a: Allowlist)
    ensures AllowedSpec(a) != [] && AllowedSpec(a)[0] == Entry(a.model, FindOr(AllowedSpec(a), a.model, a.model))
  {
    var parsed := Parsed(a.env);
    var first := Entry(a.model, FindOr(parsed, a.model, FindOr(a.builtin, a.model, a.model)));
    AddKeepsHead([first], Renamed(a.builtin, parsed));
    AddKeepsHead(AddMissing([first], Renamed(a.builtin, parsed)), parsed);
  }

  lemma {:induction false} RowsEntries(m: Models, first: Row, providers: seq<Provider>)
    requires providers != []
    requires AllowedSpec(m.Of(providers[0])) != [] && AllowedSpec(m.Of(providers[0]))[0] == Entry(first.id, first.display)
    ensures Entries(RowsOf(m, first, providers)) == UnionOf(m, providers)
    decreases |providers|
  {
    hide AllowedSpec;
    var n := |providers| - 1;
    var p := providers[n];
    AddRowsEntries(RowsOf(m, first, providers[..n]), AllowedSpec(m.Of(p)), p);
    if n == 0 {
      assert RowsOf(m, first, providers[..0]) == [first] && UnionOf(m, providers[..0]) == [];
      assert Entries([first]) == [AllowedSpec(m.Of(p))[0]];
      HeadFirst(AllowedSpec(m.Of(p)));
    } else {
      RowsEntries(m, first, providers[..n]);
    }
  }

  ghost predicate Distinct(rows: seq<Row>) {
    forall i, j :: 0 <= i < j < |rows| ==> rows[i].id != rows[j].id
  }

  lemma {:induction false} AddRowsShape(rows: seq<Row>, allowed: Dict, p: Provider)
    requires Distinct(rows)
    ensures var out := AddRows(rows, allowed, p);
            && rows <= out && Distinct(out)
            && (forall k :: |rows| <= k < |out| ==>
                  out[k].provider == p && !out[k].isDefault && Has(allowed, out[k].id) && !HasRow(rows, out[k].id))
            && (forall id :: HasRow(out, id) <==> HasRow(rows, id) || Has(allowed, id))
    decreases |allowed|
  {
    if allowed != [] {
      var n := |allowed| - 1;
      AddRowsShape(rows, allowed[..n], p);
      HasSnoc(allowed[..n], allowed[n]);
      assert allowed[..n] + [allowed[n]] == allowed;
      var before := AddRows(rows, allowed[..n], p);
      HasRowSnoc(before, Row(allowed[n].id, allowed[n].display, false, p));
      hide HasRow, Has;
      if !HasRow(before, allowed[n].id) {
        NewIsDistinct(before, Row(allowed[n].id, allowed[n].display, false, p));
      }
    }
  }

  lemma NewIsDistinct(rows: seq<Row>, row: Row)
    requires Distinct(rows) && !HasRow(rows, row.id)
    ensures Distinct(rows + [row])
  {
  }

  lemma {:induction false} FirstWithAt(m: Models, providers: seq<Provider>, i: nat, id: string, otherwise: Provider)
    requires i < |providers| && Has(AllowedSpec(m.Of(providers[i])), id)
    requires forall j :: 0 <= j < i ==> !Has(AllowedSpec(m.Of(providers[j])), id)
    ensures FirstWith(m, providers, id, otherwise) == providers[i]
    decreases i
  {
    if i > 0 {
      FirstWithAt(m, providers[1..], i - 1, id, otherwise);
    }
  }

  /** After `i` providers: every model they allow has a row, and each row names the provider that the
      router picks for its model out of the whole list. */
  ghost predicate RowsInv(m: Models, rows: seq<Row>, first: Row, providers: seq<Provider>, i: nat)
    requires i <= |providers|
  {
    && rows != [] && rows[0] == first && Distinct(rows)
    && (forall j, id :: 0 <= j < i && Has(AllowedSpec(m.Of(providers[j])), id) ==> HasRow(rows, id))
    && (forall k :: 0 < k < |rows| ==>
          !rows[k].isDefault && rows[k].provider == FirstWith(m, providers, rows[k].id, first.provider))
  }

  lemma {:induction false} RowsAreRouted(m: Models, first: Row, providers: seq<Provider>, i: nat)
    requires i <= |providers|
    ensures RowsInv(m, RowsOf(m, first, providers[..i]), first, providers, i)
  {
    hide AllowedSpec;
    if i > 0 {
      RowsAreRouted(m, first, providers, i - 1);
      assert providers[..i][..i - 1] == providers[..i - 1];
      var before := RowsOf(m, first, providers[..i - 1]);
      var p := providers[i - 1];
      var allowed := AllowedSpec(m.Of(p));
      AddRowsShape(before, allowed, p);
      var rows := AddRows(before, allowed, p);
      hide Has, HasRow, AddRows;
      forall k | 0 < k < |rows|
        ensures !rows[k].isDefault && rows[k].provider == FirstWith(m, providers, rows[k].id, first.provider)
      {
        if k < |before| {
          assert rows[k] == before[k];
        } else {
          FirstWithAt(m, providers, i - 1, rows[k].id, first.provider);
        }
      }
    }
  }

  /** Catalogue coherence, for every configuration: the rows are the union in its order, without repeats
      and under the same names; the default model is first and is the only default; and each row names
      the provider its model is routed to. */
  lemma CatalogIsCoherent(cfg: Settings, m: Models)
    ensures var rows := CatalogSpec(cfg, m);
            && Entries(rows) == UnionSpec(cfg, m)
            && Distinct(rows)
            && rows != [] && rows[0].id == m.Of(Active(cfg)).model
            && (forall k :: 0 <= k < |rows| ==> (rows[k].isDefault <==> k == 0))
            && (forall k :: 0 <= k < |rows| ==> rows[k].provider == RouteSpec(cfg, m, rows[k].id))
  {
    var providers := CreditsProvidersSpec(cfg);
    var first := DefaultRow(cfg, m);
    var a := m.Of(Active(cfg));
    DefaultLeads(a);
    RowsEntries(m, first, providers);
    RowsAreRouted(m, first, providers, |providers|);
    assert providers[..|providers|] == providers;
    assert Has(AllowedSpec(a), a.model) by { assert AllowedSpec(a)[0].id == a.model; }
    FirstWithAt(m, providers, 0, a.model, Active(cfg));
  }

  /** A stale model falls back to the active provider, and exactly the union's models are not stale. */
  lemma RoutedIffOffered(cfg: Settings, m: Models, model: string)
    ensures Has(UnionSpec(cfg, m), model) ==> Has(AllowedSpec(m.Of(RouteSpec(cfg, m, model))), model)
    ensures !Has(UnionSpec(cfg, m), model) ==> RouteSpec(cfg, m, model) == Active(cfg)
  {
    var providers := CreditsProvidersSpec(cfg);
    UnionHas(m, providers, model);
    if i :| 0 <= i < |providers| && Has(AllowedSpec(m.Of(providers[i])), model) {
      FirstHas(m, providers, model, Active(cfg));
    } else {
      NoneHas(m, providers, model, Active(cfg));
    }
  }

  lemma {:induction false} UnionHas(m: Models, providers: seq<Provider>, model: string)
    ensures Has(UnionOf(m, providers), model) <==>
            exists i :: 0 <= i < |providers| && Has(AllowedSpec(m.Of(providers[i])), model)
    decreases |providers|
  {
    hide AllowedSpec;
    if providers != [] {
      var n := |providers| - 1;
      UnionHas(m, providers[..n], model);
      AddHas(UnionOf(m, providers[..n]), AllowedSpec(m.Of(providers[n])), model);
      hide Has;
      if Has(UnionOf(m, providers[..n]), model) {
        var i :| 0 <= i < n && Has(AllowedSpec(m.Of(providers[..n][i])), model);
        assert providers[i] == providers[..n][i];
      }
      if i :| 0 <= i < |providers| && Has(AllowedSpec(m.Of(providers[i])), model) {
        if i < n { assert providers[..n][i] == providers[i]; }
      }
    }
  }

  lemma {:induction false} AddHas(d: Dict, entries: Dict, id: string)
    ensures Has(AddMissing(d, entries), id) <==> Has(d, id) || Has(entries, id)
    decreases |entries|
  {
    if entries != [] {
      var n := |entries| - 1;
      AddHas(d, entries[..n], id);
      HasSnoc(AddMissing(d, entries[..n]), entries[n]);
      HasSnoc(entries[..n], entries[n]);
      assert entries[..n] + [entries[n]] == entries;
    }
  }

  lemma {:induction false} FirstHas(m: Models, providers: seq<Provider>, model: string, otherwise: Provider)
    requires exists i :: 0 <= i < |providers| && Has(AllowedSpec(m.Of(providers[i])), model)
    ensures Has(AllowedSpec(m.Of(FirstWith(m, providers, model, otherwise))), model)
  {
    hide AllowedSpec, Has;
    if !Has(AllowedSpec(m.Of(providers[0])), model) {
      var i :| 0 <= i < |providers| && Has(AllowedSpec(m.Of(providers[i])), model);
      assert providers[1..][i - 1] == providers[i];
      FirstHas(m, providers[1..], model, otherwise);
    }
  }

  lemma {:induction false} NoneHas(m: Models, providers: seq<Provider>, model: string, otherwise: Provider)
    requires forall i :: 0 <= i < |providers| ==> !Has(AllowedSpec(m.Of(providers[i])), model)
    ensures FirstWith(m, providers, model, otherwise) == otherwise
  {
    hide AllowedSpec, Has;
    if providers != [] {
      NoneHas(m, providers[1..], model, otherwise);
    }
  }

  // ----- What an allowlist offers, said of the operator's list and the built-in names -----

  predicate Increasing(ks: seq<nat>, bound: nat) {
    (forall i, j :: 0 <= i < j < |ks| ==> ks[i] < ks[j]) && forall i :: 0 <= i < |ks| ==> ks[i] < bound
  }

  /** The entry names the model `id` and gives it a name. */
  predicate Offers(raw: (string, Option<string>), id: string) {
    id != "" && Strip(raw.0) == id && raw.1.Some? && raw.1.value != ""
  }

  lemma {:induction false} PutMeaning(d: Dict, id: string, display: string, other: string)
    ensures Find(Put(d, id, display), other) == if other == id then Some(display) else Find(d, other)
  {
    if d != [] && d[0].id != id {
      PutMeaning(d[1..], id, display, other);
    }
  }

  lemma ParsedStep(env: seq<(string, Option<string>)>, id: string)
    requires env != []
    ensures var n := |env| - 1;
            Find(Parsed(env), id) == if Offers(env[n], id) then env[n].1 else Find(Parsed(env[..n]), id)
  {
    hide Strip, Put, Find;
    var n := |env| - 1;
    if Strip(env[n].0) != "" && env[n].1.Some? && env[n].1.value != "" {
      PutMeaning(Parsed(env[..n]), Strip(env[n].0), env[n].1.value, id);
    }
  }

  /** The operator's list offers what one of its entries offers, */
  lemma {:induction false} OperatorOffers(env: seq<(string, Option<string>)>, id: string)
    ensures Find(Parsed(env), id).Some? <==> exists i :: 0 <= i < |env| && Offers(env[i], id)
    decreases |env|
  {
    if env == [] {
      EmptyFindsNone(id);
    } else {
      var n := |env| - 1;
      OperatorOffers(env[..n], id);
      ParsedStep(env, id);
      OffersName(env[n], id);
      hide Parsed, Find, Offers;
      assert forall i :: 0 <= i < n ==> env[..n][i] == env[i];
    }
  }

  /** under the name of the last one. */
  lemma {:induction false} LastNameWins(env: seq<(string, Option<string>)>, id: string, i: nat)
    requires i < |env| && Offers(env[i], id) && forall j :: i < j < |env| ==> !Offers(env[j], id)
    ensures Find(Parsed(env), id) == env[i].1
    decreases |env|
  {
    ParsedStep(env, id);
    hide Parsed, Find, Offers;
    if i < |env| - 1 {
      LastNameWins(env[..|env| - 1], id, i);
    }
  }

  lemma OffersName(raw: (string, Option<string>), id: string)
    ensures Offers(raw, id) ==> raw.1.Some?
  {
  }

  lemma EmptyFindsNone(id: string)
    ensures Find([], id) == None
  {
  }

  lemma {:induction false} FindSnoc(d: Dict, e: Entry, id: string)
    ensures Find(d + [e], id) == if Has(d, id) then Find(d, id) else if e.id == id then Some(e.display) else None
  {
    if d == [] {
      assert d + [e] == [e] && [e][1..] == [];
    } else {
      FindSnoc(d[1..], e, id);
      assert (d + [e])[1..] == d[1..] + [e] && (d + [e])[0] == d[0];
    }
  }

  lemma {:induction false} AddedNames(d: Dict, entries: Dict, id: string)
    ensures Find(AddMissing(d, entries), id) == if Has(d, id) then Find(d, id) else Find(entries, id)
    decreases |entries|
  {
    hide Find, Has;
    if entries != [] {
      var n := |entries| - 1;
      AddedNames(d, entries[..n], id);
      assert entries == entries[..n] + [entries[n]];
      FindSnoc(entries[..n], entries[n], id);
      FindSnoc(AddMissing(d, entries[..n]), entries[n], id);
      FoundIsHad(d, id);
      FoundIsHad(entries[..n], id);
      FoundIsHad(AddMissing(d, entries[..n]), id);
    } else {
      EmptyFindsNone(id);
      FoundIsHad(d, id);
    }
  }

  lemma FoundIsHad(d: Dict, id: string)
    ensures Find(d, id).Some? <==> Has(d, id)
  {
  }

  lemma {:induction false} RenamedNames(entries: Dict, names: Dict, id: string)
    ensures Find(Renamed(entries, names), id) ==
            if !Has(entries, id) then None else if Has(names, id) then Find(names, id) else Find(entries, id)
    decreases |entries|
  {
    FoundIsHad(entries, id);
    if entries != [] {
      RenamedNames(entries[1..], names, id);
      assert Renamed(entries, names)[1..] == Renamed(entries[1..], names);
      FoundIsHad(entries[1..], id);
    }
  }

  /** A model is offered iff it is the provider's default, built in, or on the operator's list; it carries the
      operator's name if there is one, else the built-in name, else its id. */
  lemma OfferedNames(a: Allowlist, id: string)
    ensures Has(AllowedSpec(a), id) <==>
            id == a.model || Has(a.builtin, id) || exists i :: 0 <= i < |a.env| && Offers(a.env[i], id)
    ensures Has(AllowedSpec(a), id) ==>
              Find(AllowedSpec(a), id) == Some(
                if Find(Parsed(a.env), id).Some? then Find(Parsed(a.env), id).value
                else if Find(a.builtin, id).Some? then Find(a.builtin, id).value else id)
  {
    hide AddMissing, Parsed, Renamed, Find;
    var parsed := Parsed(a.env);
    var first := Entry(a.model, FindOr(parsed, a.model, FindOr(a.builtin, a.model, a.model)));
    var middle := AddMissing([first], Renamed(a.builtin, parsed));
    OperatorOffers(a.env, id);
    AddedNames(middle, parsed, id);
    AddedNames([first], Renamed(a.builtin, parsed), id);
    RenamedNames(a.builtin, parsed, id);
    OneFinds(first, id);
    FoundIsHad(AllowedSpec(a), id);
    FoundIsHad(middle, id);
    FoundIsHad(parsed, id);
    FoundIsHad(a.builtin, id);
    FoundIsHad([first], id);
    FoundIsHad(Renamed(a.builtin, parsed), id);
    hide Has, Offers;
  }

  lemma OneFinds(e: Entry, id: string)
    ensures Find([e], id) == if e.id == id then Some(e.display) else None
  {
    assert [e][1..] == [];
  }

  lemma {:induction false} AddedInOrder(d: Dict, entries: Dict) returns (ks: seq<nat>)
    ensures Increasing(ks, |entries|)
    ensures AddMissing(d, entries) == d + seq(|ks|, i requires 0 <= i < |ks| && ks[i] < |entries| => entries[ks[i]])
    decreases |entries|
  {
    hide Has;
    if entries == [] {
      ks := [];
    } else {
      var n := |entries| - 1;
      ks := AddedInOrder(d, entries[..n]);
      if AddMissing(d, entries) != AddMissing(d, entries[..n]) {
        ks := ks + [n];
      }
    }
  }

  /** The default comes first, then built-in models in their order, then the operator's others in theirs. */
  lemma OfferedOrder(a: Allowlist) returns (built: seq<nat>, others: seq<nat>)
    ensures var parsed := Parsed(a.env);
            && Increasing(built, |a.builtin|) && Increasing(others, |parsed|)
            && |AllowedSpec(a)| == 1 + |built| + |others|
            && AllowedSpec(a)[0].id == a.model
            && (forall i :: 0 <= i < |built| ==> AllowedSpec(a)[1 + i].id == a.builtin[built[i]].id)
            && (forall i :: 0 <= i < |others| ==> AllowedSpec(a)[1 + |built| + i] == parsed[others[i]])
  {
    var parsed := Parsed(a.env);
    var first := Entry(a.model, FindOr(parsed, a.model, FindOr(a.builtin, a.model, a.model)));
    built := AddedInOrder([first], Renamed(a.builtin, parsed));
    others := AddedInOrder(AddMissing([first], Renamed(a.builtin, parsed)), parsed);
    hide AddMissing, Parsed, FindOr;
  }

  lemma {:induction false} FirstWithSnoc(m: Models, providers: seq<Provider>, p: Provider, id: string, otherwise: Provider)
    ensures FirstWith(m, providers + [p], id, otherwise) ==
            if exists i :: 0 <= i < |providers| && Has(AllowedSpec(m.Of(providers[i])), id) then FirstWith(m, providers, id, otherwise)
            else if Has(AllowedSpec(m.Of(p)), id) then p else otherwise
  {
    hide AllowedSpec, Has;
    if providers == [] {
      assert providers + [p] == [p] && [p][1..] == [];
    } else {
      assert (providers + [p])[1..] == providers[1..] + [p];
      FirstWithSnoc(m, providers[1..], p, id, otherwise);
      assert forall i :: 0 <= i < |providers| - 1 ==> providers[1..][i] == providers[i + 1];
      if i :| 0 <= i < |providers| && Has(AllowedSpec(m.Of(providers[i])), id) {
        assert i > 0 ==> providers[1..][i - 1] == providers[i];
      }
    }
  }

  /** A model of the union carries the name that the provider it is routed to gives it. */
  lemma {:induction false} UnionNames(m: Models, providers: seq<Provider>, id: string, otherwise: Provider)
    requires Has(UnionOf(m, providers), id)
    ensures Find(UnionOf(m, providers), id) == Find(AllowedSpec(m.Of(FirstWith(m, providers, id, otherwise))), id)
    decreases |providers|
  {
    hide AllowedSpec, Find, Has, FirstWith, AddMissing;
    if providers == [] {
      NothingHad(id);
    } else {
      var n := |providers| - 1;
      var p := providers[n];
      assert providers == providers[..n] + [p];
      UnionHas(m, providers[..n], id);
      UnionHas(m, providers, id);
      FirstWithSnoc(m, providers[..n], p, id, otherwise);
      AddedNames(UnionOf(m, providers[..n]), AllowedSpec(m.Of(p)), id);
      if Has(UnionOf(m, providers[..n]), id) {
        UnionNames(m, providers[..n], id, otherwise);
      } else {
        var i :| 0 <= i < |providers| && Has(AllowedSpec(m.Of(providers[i])), id);
        if i < n {
          LaterIsNotEarlier(m, providers, i, id);
          assert false;
        }
      }
    }
  }

  lemma LaterIsNotEarlier(m: Models, providers: seq<Provider>, i: nat, id: string)
    requires i + 1 < |providers| && Has(AllowedSpec(m.Of(providers[i])), id)
    ensures var n := |providers| - 1; exists j :: 0 <= j < n && Has(AllowedSpec(m.Of(providers[..n][j])), id)
  {
    hide Has, AllowedSpec;
    assert providers[..|providers| - 1][i] == providers[i];
  }

  lemma NothingHad(id: string)
    ensures !Has([], id)
  {
  }
}
