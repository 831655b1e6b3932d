/** Two pairs of settings that constrain each other: the default model and the offered models, the default
    mode and the advertised modes. Environment and active providers are fixed. */
module SettingPairs {
  import opened Base
  import ModelCatalog
  import Providers

  datatype Refusal = TypeMismatch | TooFew | Conflict

  predicate NoRepeats(s: seq<string>) {
    forall i, j :: 0 <= i < j < |s| ==> s[i] != s[j]
  }

  /** First occurrences, in order. */
  function Dedup(s: seq<string>): (r: seq<string>)
    ensures NoRepeats(r) && forall x :: x in r <==> x in s
  {
    if s == [] then []
    else
      var before := Dedup(s[..|s| - 1]);
      assert s == s[..|s| - 1] + [s[|s| - 1]];
      if s[|s| - 1] in before then before else before + [s[|s| - 1]]
  }

  /** A list value: declared options only, repeats dropped, not empty. */
  method ValidateList(value: seq<string>, allowed: set<string>) returns (r: Result<seq<string>, Refusal>)
    ensures r == ListSpec(value, allowed)
  {
    var selected: seq<string> := [];
    for i := 0 to |value|
      invariant forall j :: 0 <= j < i ==> value[j] in allowed
      invariant selected == Dedup(value[..i])
    {
      if value[i] !in allowed {
        return Err(TypeMismatch);
      }
      assert value[..i + 1][..i] == value[..i];
      if value[i] !in selected {
        selected := selected + [value[i]];
      }
    }
    assert value[..|value|] == value;
    if |selected| < 1 {
      return Err(TooFew);
    }
    return Ok(selected);
  }

  function ListSpec(value: seq<string>, allowed: set<string>): Result<seq<string>, Refusal> {
    if exists i :: 0 <= i < |value| && value[i] !in allowed then Err(TypeMismatch)
    else if Dedup(value) == [] then Err(TooFew)
    else Ok(Dedup(value))
  }

  // ----- Models -----

  /** `union` are the models of the enabled providers, `fallback` the instance's default among them. */
  datatype ModelEnv = ModelEnv(union: seq<string>, fallback: string)

  datatype ModelRows = ModelRows(model: Option<string>, offered: Option<seq<string>>)

  /** A default that the instance no longer serves is not applied. */
  function DefaultModel(env: ModelEnv, rows: ModelRows): string {
    if rows.model.Some? && rows.model.value in env.union then rows.model.value else env.fallback
  }

  function Offered(env: ModelEnv, rows: ModelRows): seq<string> {
    if rows.offered.Some? then rows.offered.value else env.union
  }

  datatype ModelEdit = SetModel(model: string) | SetOffered(models: seq<string>)

  function AppliedModel(env: ModelEnv, rows: ModelRows, e: ModelEdit): ModelRows {
    match e
    case SetModel(model) => rows.(model := Some(model))
    case SetOffered(models) => rows.(offered := Some(Dedup(models)))
  }

  /** Value bounds first, then the neighbour. */
  function ModelRefusal(env: ModelEnv, rows: ModelRows, e: ModelEdit): Option<Refusal> {
    match e
    case SetModel(model) =>
      if model !in env.union then Some(TypeMismatch)
      else if model !in Offered(env, rows) then Some(Conflict)
      else None
    case SetOffered(models) =>
      match ListSpec(models, set m | m in env.union)
      case Err(x) => Some(x)
      case Ok(list) => if DefaultModel(env, rows) !in list then Some(Conflict) else None
  }

  function NextModels(env: ModelEnv, rows: ModelRows, e: ModelEdit): ModelRows {
    if ModelRefusal(env, rows, e).Some? then rows else AppliedModel(env, rows, e)
  }

  predicate ModelsAgree(env: ModelEnv, rows: ModelRows) {
    DefaultModel(env, rows) in Offered(env, rows)
  }

  function RunModels(env: ModelEnv, rows: ModelRows, edits: seq<ModelEdit>): ModelRows
    decreases |edits|
  {
    if edits == [] then rows else NextModels(env, RunModels(env, rows, edits[..|edits| - 1]), edits[|edits| - 1])
  }

  /** Every run of edits keeps the default model among the offered ones. */
  lemma {:induction false} RunKeepsModels(env: ModelEnv, rows: ModelRows, edits: seq<ModelEdit>)
    requires ModelsAgree(env, rows)
    ensures ModelsAgree(env, RunModels(env, rows, edits))
    decreases |edits|
  {
    hide Dedup;
    if edits != [] {
      RunKeepsModels(env, rows, edits[..|edits| - 1]);
    }
  }

  /** What the catalogue says of an instance: its union of models, and the active provider's default. */
  function EnvOf(cfg: Providers.Settings, m: ModelCatalog.Models): ModelEnv {
    var served := ModelCatalog.UnionSpec(cfg, m);
    ModelEnv(seq(|served|, i requires 0 <= i < |served| => served[i].id), m.Of(Providers.Active(cfg)).model)
  }

  /** So on every instance, whatever its allowlists, the pair agrees from the first edit on. */
  lemma InstanceKeepsModels(cfg: Providers.Settings, m: ModelCatalog.Models, edits: seq<ModelEdit>)
    ensures ModelsAgree(EnvOf(cfg, m), RunModels(EnvOf(cfg, m), ModelRows(None, None), edits))
  {
    hide ModelCatalog.UnionSpec, ModelCatalog.CatalogSpec, ModelsAgree, RunModels;
    var env := EnvOf(cfg, m);
    ModelCatalog.CatalogIsCoherent(cfg, m);
    var rows := ModelCatalog.CatalogSpec(cfg, m);
    assert ModelCatalog.Entries(rows)[0].id == rows[0].id;
    assert env.union[0] == env.fallback;
    FreshModelsAgree(env);
    RunKeepsModels(env, ModelRows(None, None), edits);
  }

  lemma FreshModelsAgree(env: ModelEnv)
    requires env.fallback in env.union
    ensures ModelsAgree(env, ModelRows(None, None))
  {
  }

  /** And the refusals are exact: an edit with admissible values is refused iff it would break the pair. */
  lemma ModelConflictIff(env: ModelEnv, rows: ModelRows, e: ModelEdit)
    requires ModelsAgree(env, rows)
    requires ModelRefusal(env, rows, e) != Some(TypeMismatch) && ModelRefusal(env, rows, e) != Some(TooFew)
    ensures ModelRefusal(env, rows, e) == Some(Conflict) <==> !ModelsAgree(env, AppliedModel(env, rows, e))
  {
  }

  // ----- Modes -----

  /** `order` lists every known mode; the environment advertises some and names a default. */
  datatype ModeEnv = ModeEnv(order: seq<string>, advertised: seq<string>, mode: string)

  datatype ModeRows = ModeRows(mode: Option<string>, advertised: Option<seq<string>>)

  function DefaultMode(env: ModeEnv, rows: ModeRows): string {
    if rows.mode.Some? then rows.mode.value else env.mode
  }

  function StoredModes(env: ModeEnv, rows: ModeRows): seq<string> {
    if rows.advertised.Some? then rows.advertised.value else env.advertised
  }

  /** The modes of `order` that are selected, in that order. */
  function InOrder(order: seq<string>, selected: set<string>): (r: seq<string>)
    ensures forall x :: x in r <==> x in order && x in selected
  {
    if order == [] then []
    else
      assert order == [order[0]] + order[1..];
      (if order[0] in selected then [order[0]] else []) + InOrder(order[1..], selected)
  }

  /** The advertised modes as read: the default is always among them. */
  function AdvertisedModes(env: ModeEnv, rows: ModeRows): seq<string> {
    InOrder(env.order, (set m | m in StoredModes(env, rows)) + {DefaultMode(env, rows)})
  }

  /** A list without the current default gets it, in canonical order; another list is kept as sent. */
  function Normalized(env: ModeEnv, value: seq<string>, mode: string): seq<string> {
    if mode in value then value else InOrder(env.order, (set m | m in value) + {mode})
  }

  datatype ModeEdit = SetMode(mode: string) | SetAdvertised(modes: seq<string>)

  function ModeRefusal(env: ModeEnv, rows: ModeRows, e: ModeEdit): Option<Refusal> {
    match e
    case SetMode(mode) =>
      if mode !in env.order then Some(TypeMismatch)
      else if mode !in AdvertisedModes(env, rows) then Some(Conflict)
      else None
    case SetAdvertised(modes) =>
      var list := ListSpec(modes, set m | m in env.order);
      if list.Err? then Some(list.error) else None
  }

  function NextModes(env: ModeEnv, rows: ModeRows, e: ModeEdit): ModeRows {
    if ModeRefusal(env, rows, e).Some? then rows
    else match e
      case SetMode(mode) => rows.(mode := Some(mode))
      case SetAdvertised(modes) => rows.(advertised := Some(Normalized(env, Dedup(modes), DefaultMode(env, rows))))
  }

  predicate ModesAgree(env: ModeEnv, rows: ModeRows) {
    DefaultMode(env, rows) in StoredModes(env, rows) && DefaultMode(env, rows) in env.order
  }

  function RunModes(env: ModeEnv, rows: ModeRows, edits: seq<ModeEdit>): ModeRows
    decreases |edits|
  {
    if edits == [] then rows else NextModes(env, RunModes(env, rows, edits[..|edits| - 1]), edits[|edits| - 1])
  }

  /** Every run of edits keeps the stored default mode among the stored advertised modes, and what is read
      is the stored list in canonical order with nothing added. */
  lemma {:induction false} RunKeepsModes(env: ModeEnv, rows: ModeRows, edits: seq<ModeEdit>)
    requires ModesAgree(env, rows)
    ensures var after := RunModes(env, rows, edits);
            && ModesAgree(env, after)
            && AdvertisedModes(env, after) == InOrder(env.order, set m | m in StoredModes(env, after))
    decreases |edits|
  {
    if edits != [] {
      RunKeepsModes(env, rows, edits[..|edits| - 1]);
      hide InOrder, Dedup;
    }
    var after := RunModes(env, rows, edits);
    var stored := set m | m in StoredModes(env, after);
    assert stored + {DefaultMode(env, after)} == stored;
  }

  /** Normalising adds the current default and loses no choice of the operator. */
  lemma NormalizedMeaning(env: ModeEnv, value: seq<string>, mode: string)
    requires mode in env.order && forall m :: m in value ==> m in env.order
    ensures forall m :: m in Normalized(env, value, mode) <==> m in value || m == mode
  {
    hide InOrder;
  }

  class PairedSettings {
    var models: ModelRows
    var modes: ModeRows
    const modelEnv: ModelEnv
    const modeEnv: ModeEnv

    constructor (modelEnv: ModelEnv, modeEnv: ModeEnv)
      ensures this.modelEnv == modelEnv && this.modeEnv == modeEnv
      ensures models == ModelRows(None, None) && modes == ModeRows(None, None)
    {
      this.modelEnv, this.modeEnv := modelEnv, modeEnv;
      models, modes := ModelRows(None, None), ModeRows(None, None);
    }

    method PatchModels(e: ModelEdit) returns (refusal: Option<Refusal>)
      modifies this`models
      ensures refusal == ModelRefusal(modelEnv, old(models), e)
      ensures models == NextModels(modelEnv, old(models), e)
    {
      match e {
        case SetModel(model) =>
          if model !in modelEnv.union {
            return Some(TypeMismatch);
          }
          if model !in Offered(modelEnv, models) {
            return Some(Conflict);
          }
          models := models.(model := Some(model));
        case SetOffered(list) =>
          var checked := ValidateList(list, set m | m in modelEnv.union);
          if checked.Err? {
            return Some(checked.error);
          }
          if DefaultModel(modelEnv, models) !in checked.value {
            return Some(Conflict);
          }
          models := models.(offered := Some(checked.value));
      }
      return None;
    }

    method PatchModes(e: ModeEdit) returns (refusal: Option<Refusal>)
      modifies this`modes
      ensures refusal == ModeRefusal(modeEnv, old(modes), e)
      ensures modes == NextModes(modeEnv, old(modes), e)
    {
      match e {
        case SetMode(mode) =>
          if mode !in modeEnv.order {
            return Some(TypeMismatch);
          }
          if mode !in AdvertisedModes(modeEnv, modes) {
            return Some(Conflict);
          }
          modes := modes.(mode := Some(mode));
        case SetAdvertised(list) =>
          var checked := ValidateList(list, set m | m in modeEnv.order);
          if checked.Err? {
            return Some(checked.error);
          }
          modes := modes.(advertised := Some(Normalized(modeEnv, checked.value, DefaultMode(modeEnv, modes))));
      }
      return None;
    }
  }

  // ----- Order, and what is refused -----

  predicate Increasing(ks: seq<nat>, bound: nat) {
    (forall i, j :: 0 <= i < j < |ks| ==> ks[i] < ks[j]) && forall i :: 0 <= i < |ks| ==> ks[i] < bound
  }

  predicate FirstAt(s: seq<string>, k: nat) {
    k < |s| && s[k] !in s[..k]
  }

  /** Dropping repeats keeps first occurrences where they stand. */
  lemma {:induction false} DedupInOrder(s: seq<string>) returns (ks: seq<nat>)
    ensures Increasing(ks, |s|) && |Dedup(s)| == |ks|
    ensures forall i :: 0 <= i < |ks| ==> Dedup(s)[i] == s[ks[i]] && FirstAt(s, ks[i])
    decreases |s|
  {
    ks := [];
    assert Increasing(ks, 0);
    hide Dedup, FirstAt, Increasing;
    DedupStep(s);
    if s != [] {
      var n := |s| - 1;
      ks := DedupInOrder(s[..n]);
      AppendLast(ks, n);
      if FirstAt(s, n) {
        ks := ks + [n];
      }
    }
  }

  lemma DedupStep(s: seq<string>)
    ensures var n := |s| - 1;
            Dedup(s) == if s == [] then [] else if FirstAt(s, n) then Dedup(s[..n]) + [s[n]] else Dedup(s[..n])
    ensures s != [] ==> forall k: nat :: k < |s| - 1 ==> s[..|s| - 1][k] == s[k] && (FirstAt(s[..|s| - 1], k) <==> FirstAt(s, k))
  {
    forall k: nat | k < |s| - 1 ensures s[..|s| - 1][k] == s[k] && (FirstAt(s[..|s| - 1], k) <==> FirstAt(s, k)) {
      assert s[..|s| - 1][..k] == s[..k];
    }
  }

  /** The index one past the bound goes behind all the others. */
  lemma AppendLast(ks: seq<nat>, n: nat)
    requires Increasing(ks, n)
    ensures Increasing(ks, n + 1) && Increasing(ks + [n], n + 1)
    ensures forall i :: 0 <= i < |ks| ==> ks[i] < n
  {
  }

  /** A list is refused for an option nobody declared, or for being empty; else it is stored without repeats. */
  lemma ListRefusedIff(value: seq<string>, allowed: set<string>)
    ensures ListSpec(value, allowed) == Err(TypeMismatch) <==> exists x :: x in value && x !in allowed
    ensures ListSpec(value, allowed) == Err(TooFew) <==> value == []
    ensures ListSpec(value, allowed).Ok? ==> forall x :: x in ListSpec(value, allowed).value <==> x in value
  {
    if x :| x in value && x !in allowed {
      var i :| 0 <= i < |value| && value[i] == x;
    }
    if value != [] {
      assert value[0] in value && value[0] in Dedup(value);
    }
  }

  predicate Picks(out: seq<string>, order: seq<string>, ks: seq<nat>) {
    |out| == |ks| && forall i :: 0 <= i < |ks| ==> ks[i] < |order| && out[i] == order[ks[i]]
  }

  /** Modes are read in the order of the declared list. */
  lemma {:induction false} ReadInOrder(order: seq<string>, selected: set<string>) returns (ks: seq<nat>)
    ensures Increasing(ks, |order|) && Picks(InOrder(order, selected), order, ks)
  {
    if order == [] {
      ks := [];
    } else {
      var rest := ReadInOrder(order[1..], selected);
      ks := Shifted(rest, order[0] in selected);
      ShiftedIncreases(rest, |order| - 1, order[0] in selected);
      ShiftedPicks(InOrder(order[1..], selected), order, rest, order[0] in selected);
      hide Increasing, Picks, Shifted;
    }
  }

  lemma ShiftedPicks(out: seq<string>, order: seq<string>, ks: seq<nat>, first: bool)
    requires order != [] && Picks(out, order[1..], ks)
    ensures Picks((if first then [order[0]] else []) + out, order, Shifted(ks, first))
  {
    assert forall i :: 0 <= i < |ks| ==> order[1..][ks[i]] == order[ks[i] + 1];
  }

  function Shifted(ks: seq<nat>, first: bool): seq<nat> {
    (if first then [0] else []) + seq(|ks|, i requires 0 <= i < |ks| => ks[i] + 1)
  }

  lemma ShiftedIncreases(ks: seq<nat>, bound: nat, first: bool)
    requires Increasing(ks, bound)
    ensures Increasing(Shifted(ks, first), bound + 1)
  {
  }

  /** A default model is accepted iff the instance serves it and it is offered; a default mode iff it is known
      and advertised, the current default counting as advertised. */
  lemma DefaultAcceptedIff(env: ModelEnv, rows: ModelRows, model: string, modes: ModeEnv, modeRows: ModeRows, mode: string)
    ensures ModelRefusal(env, rows, SetModel(model)).None? <==>
            model in env.union && (rows.offered.Some? ==> model in rows.offered.value)
    ensures ModeRefusal(modes, modeRows, SetMode(mode)).None? <==>
            && mode in modes.order
            && (|| mode in (if modeRows.advertised.Some? then modeRows.advertised.value else modes.advertised)
                || mode == (if modeRows.mode.Some? then modeRows.mode.value else modes.mode))
  {
    hide InOrder;
  }

  /** A stored default model that the instance no longer serves is not applied. */
  lemma StaleDefaultIsIgnored(env: ModelEnv, rows: ModelRows)
    requires env.fallback in env.union
    ensures DefaultModel(env, rows) in env.union
    ensures rows.model.Some? && rows.model.value in env.union ==> DefaultModel(env, rows) == rows.model.value
    ensures rows.model.None? || rows.model.value !in env.union ==> DefaultModel(env, rows) == env.fallback
  {
  }
}
