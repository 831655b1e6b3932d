/** The operator's product editor: overlay rows in the database, paired with their audit trail.

    Decisions read the database; the process snapshot is taken to have caught up with it. */
module OverlayProducts {
  import opened Base
  import opened Pricing

  const PRODUCT_TOKENS_MAX := 1_000_000

  /** Whole seconds. */
  type Stamp = int

  type Rows = map<string, OverlayRow>

  /** An entry of the instance's own product catalogue. */
  datatype SourceRow = SourceRow(tokens: Option<int>, kind: Option<PurchaseKind>)

  datatype Reason =
    | UnknownId | OutOfRange | TypeMismatch | UndeclaredBound | SourceKindMissing | UnsupportedField
    | Duplicate | VersionConflict | OwnedByInstance

  datatype Event =
    | Created(id: string, name: string, kind: PurchaseKind, tokens: int)
    | TokensUpdated(id: string, previousTokens: Option<int>, nextTokens: int)
    | ArchivedSet(id: string, previousFlag: bool, nextFlag: bool)
    | Deleted(id: string, row: OverlayRow)

  datatype CreateRequest = CreateRequest(
    id: string, name: string, kind: PurchaseKind, tokens: nat, avatarTokens: Option<int>)

  datatype PatchRequest = PatchRequest(
    tokens: Option<nat>, archived: Option<bool>, avatarTokens: Option<int>, ifUpdatedAt: Option<Stamp>)

  datatype State = State(rows: Rows, audit: seq<Event>)

  // ----- The catalogue -----

  /** The instance's own entry for a product: the first of its four sources that has it. */
  function SourceOf(cfg: Config, catalog: map<string, SourceRow>, id: string): Option<SourceRow> {
    if id in cfg.tokenProducts then Some(SourceRow(Some(cfg.tokenProducts[id]), Some(OneTime)))
    else if id in cfg.adaptyProducts then Some(SourceRow(Some(cfg.adaptyProducts[id]), Some(SubscriptionKind)))
    else if id in cfg.cloudProducts then Some(SourceRow(Some(cfg.cloudProducts[id]), Some(SubscriptionKind)))
    else if id in catalog then Some(catalog[id])
    else None
  }

  /** One line of the catalogue; `own` says that only the operator's row makes it. */
  datatype ProductRow = ProductRow(tokens: Option<int>, kind: Option<PurchaseKind>, archived: bool, own: bool)

  /** Field by field: the overlay wins only where it is set. */
  function Merged(source: Option<SourceRow>, rows: Rows, id: string): Option<ProductRow> {
    if id in rows then
      var o := rows[id];
      match source
      case None => Some(ProductRow(o.tokens, o.kind, o.archived, true))
      case Some(s) => Some(ProductRow(if o.tokens.Some? then o.tokens else s.tokens,
                                      if o.kind.Some? then o.kind else s.kind, o.archived, false))
    else match source
      case None => None
      case Some(s) => Some(ProductRow(s.tokens, s.kind, false, false))
  }

  /** A number is shown only with its class. */
  function Visible(row: ProductRow): Option<int> {
    if row.kind.Some? then row.tokens else None
  }

  // ----- Specification -----

  function TokensRefusal(tokens: int, kind: PurchaseKind): Option<Reason> {
    if tokens < (if kind == OneTime then 1 else 0) then Some(UndeclaredBound)
    else if tokens > PRODUCT_TOKENS_MAX then Some(OutOfRange)
    else None
  }

  predicate BadId(id: string) {
    id == "" || exists k :: 0 <= k < |id| && IsSpace(id[k])
  }

  function CreateRefusal(st: State, source: Option<SourceRow>, r: CreateRequest): Option<Reason> {
    if r.avatarTokens.Some? then Some(UnsupportedField)
    else if BadId(Strip(r.id)) then Some(TypeMismatch)
    else if Merged(source, st.rows, Strip(r.id)).Some? then Some(Duplicate)
    else TokensRefusal(r.tokens, r.kind)
  }

  function CreateSpec(st: State, source: Option<SourceRow>, r: CreateRequest, now: Stamp): State {
    if CreateRefusal(st, source, r).Some? then st
    else
      var id := Strip(r.id);
      State(st.rows[id := OverlayRow(Some(r.name), Some(r.kind), Some(r.tokens), false, now)],
            st.audit + [Created(id, r.name, r.kind, r.tokens)])
  }

  function PatchRefusal(st: State, source: Option<SourceRow>, id: string, r: PatchRequest): Option<Reason> {
    if r.avatarTokens.Some? then Some(UnsupportedField)
    else if r.tokens.None? && r.archived.None? then Some(TypeMismatch)
    else
      var row := Merged(source, st.rows, id);
      if row.None? then Some(UnknownId)
      else if r.ifUpdatedAt.Some? && !(id in st.rows && st.rows[id].updatedAt == r.ifUpdatedAt.value)
        then Some(VersionConflict)
      else if r.tokens.None? then None
      else if row.value.kind.None? then Some(SourceKindMissing)
      else TokensRefusal(r.tokens.value, row.value.kind.value)
  }

  predicate TokensChanged(rows: Rows, id: string, r: PatchRequest) {
    r.tokens.Some? && (id !in rows || rows[id].tokens.None? || rows[id].tokens.value != r.tokens.value)
  }

  predicate ArchivedChanged(rows: Rows, id: string, r: PatchRequest) {
    r.archived.Some? && (id !in rows || rows[id].archived != r.archived.value)
  }

  function PatchedRow(rows: Rows, id: string, r: PatchRequest, kind: Option<PurchaseKind>, now: Stamp): OverlayRow {
    var before := if id in rows then rows[id] else OverlayRow(None, None, None, false, now);
    OverlayRow(before.name,
               if r.tokens.Some? then kind else before.kind,
               if r.tokens.Some? then r.tokens else before.tokens,
               if r.archived.Some? then r.archived.value else before.archived,
               now)
  }

  function PatchSpec(st: State, source: Option<SourceRow>, id: string, r: PatchRequest, now: Stamp): State {
    if PatchRefusal(st, source, id, r).Some? || !(TokensChanged(st.rows, id, r) || ArchivedChanged(st.rows, id, r))
    then st
    else
      var row := Merged(source, st.rows, id).value;
      State(st.rows[id := PatchedRow(st.rows, id, r, row.kind, now)],
            st.audit
            + (if TokensChanged(st.rows, id, r) then [TokensUpdated(id, Visible(row), r.tokens.value)] else [])
            + (if ArchivedChanged(st.rows, id, r) then [ArchivedSet(id, row.archived, r.archived.value)] else []))
  }

  function DeleteRefusal(st: State, source: Option<SourceRow>, id: string): Option<Reason> {
    if source.Some? then Some(OwnedByInstance)
    else if id !in st.rows then Some(UnknownId)
    else None
  }

  function DeleteSpec(st: State, source: Option<SourceRow>, id: string): State {
    if DeleteRefusal(st, source, id).Some? then st
    else State(st.rows - {id}, st.audit + [Deleted(id, st.rows[id])])
  }

  // ----- The service -----

  class AdminProducts {
    var rows: Rows
    var audit: seq<Event>
    const cfg: Config
    const catalog: map<string, SourceRow>

    constructor (cfg: Config, catalog: map<string, SourceRow>, st: State)
      ensures this.cfg == cfg && this.catalog == catalog && View() == st
    {
      this.cfg, this.catalog := cfg, catalog;
      rows, audit := st.rows, st.audit;
    }

    function View(): State
      reads this
    {
      State(rows, audit)
    }

    function FindProduct(id: string): Option<ProductRow>
      reads this
    {
      Merged(SourceOf(cfg, catalog, id), rows, id)
    }

    method CreateProduct(r: CreateRequest, now: Stamp) returns (refusal: Option<Reason>)
      modifies this
      ensures refusal == CreateRefusal(old(View()), SourceOf(cfg, catalog, Strip(r.id)), r)
      ensures View() == CreateSpec(old(View()), SourceOf(cfg, catalog, Strip(r.id)), r, now)
    {
      if r.avatarTokens.Some? {
        return Some(UnsupportedField);
      }
      var id := Strip(r.id);
      if id == "" || exists k :: 0 <= k < |id| && IsSpace(id[k]) {
        return Some(TypeMismatch);
      }
      if FindProduct(id).Some? {
        return Some(Duplicate);
      }
      refusal := TokensRefusal(r.tokens, r.kind);
      if refusal.None? {
        rows := rows[id := OverlayRow(Some(r.name), Some(r.kind), Some(r.tokens), false, now)];
        audit := audit + [Created(id, r.name, r.kind, r.tokens)];
      }
    }

    method PatchProduct(id: string, r: PatchRequest, now: Stamp) returns (refusal: Option<Reason>)
      modifies this
      ensures refusal == PatchRefusal(old(View()), SourceOf(cfg, catalog, id), id, r)
      ensures View() == PatchSpec(old(View()), SourceOf(cfg, catalog, id), id, r, now)
    {
      if r.avatarTokens.Some? {
        return Some(UnsupportedField);
      }
      if r.tokens.None? && r.archived.None? {
        return Some(TypeMismatch);
      }
      var overlay := if id in rows then Some(rows[id]) else None;
      var row := FindProduct(id);
      if overlay.None? && row.None? {
        return Some(UnknownId);
      }
      if r.ifUpdatedAt.Some? && (overlay.None? || overlay.value.updatedAt != r.ifUpdatedAt.value) {
        return Some(VersionConflict);
      }
      var storedTokens := if overlay.Some? && overlay.value.tokens.Some? then overlay.value.tokens else row.value.tokens;
      var storedArchived := if overlay.Some? then overlay.value.archived else row.value.archived;
      var kind := if overlay.Some? && overlay.value.kind.Some? then overlay.value.kind else row.value.kind;
      if r.tokens.Some? {
        if kind.None? {
          return Some(SourceKindMissing);
        }
        refusal := TokensRefusal(r.tokens.value, kind.value);
        if refusal.Some? {
          return;
        }
      }
      var archived := if r.archived.Some? then r.archived.value else storedArchived;
      var previousTokens := if kind.Some? then storedTokens else None;
      var tokensChanged :=
        r.tokens.Some? && (overlay.None? || overlay.value.tokens.None? || r.tokens.value != overlay.value.tokens.value);
      var archivedChanged := r.archived.Some? && (overlay.None? || r.archived.value != storedArchived);
      if !tokensChanged && !archivedChanged {
        return None;
      }
      if overlay.None? {
        rows := rows[id := OverlayRow(None, if r.tokens.Some? then kind else None, r.tokens, archived, now)];
      } else {
        var written := overlay.value;
        if r.tokens.Some? {
          written := written.(tokens := r.tokens, kind := kind);
        }
        if r.archived.Some? {
          written := written.(archived := archived);
        }
        rows := rows[id := written.(updatedAt := now)];
      }
      if tokensChanged {
        audit := audit + [TokensUpdated(id, previousTokens, r.tokens.value)];
      }
      if archivedChanged {
        audit := audit + [ArchivedSet(id, storedArchived, archived)];
      }
      return None;
    }

    method DeleteProduct(id: string) returns (refusal: Option<Reason>)
      modifies this
      ensures refusal == DeleteRefusal(old(View()), SourceOf(cfg, catalog, id), id)
      ensures View() == DeleteSpec(old(View()), SourceOf(cfg, catalog, id), id)
    {
      var row := FindProduct(id);
      if row.Some? && !row.value.own {
        return Some(OwnedByInstance);
      }
      if id !in rows {
        return Some(UnknownId);
      }
      var previous := rows[id];
      rows := rows - {id};
      audit := audit + [Deleted(id, previous)];
      return None;
    }
  }

  // ----- Runs -----

  datatype Op =
    | Create(create: CreateRequest, now: Stamp)
    | Patch(id: string, patch: PatchRequest, now: Stamp)
    | Delete(id: string)

  function Target(op: Op): string {
    if op.Create? then Strip(op.create.id) else op.id
  }

  function Step(st: State, cfg: Config, catalog: map<string, SourceRow>, op: Op): State {
    var source := SourceOf(cfg, catalog, Target(op));
    match op
    case Create(r, now) => CreateSpec(st, source, r, now)
    case Patch(id, r, now) => PatchSpec(st, source, id, r, now)
    case Delete(id) => DeleteSpec(st, source, id)
  }

  function Run(st: State, cfg: Config, catalog: map<string, SourceRow>, ops: seq<Op>): State
    decreases |ops|
  {
    if ops == [] then st
    else Step(Run(st, cfg, catalog, ops[..|ops| - 1]), cfg, catalog, ops[|ops| - 1])
  }

  /** What the trail says a row holds: number and flag. */
  type Facts = map<string, (Option<int>, bool)>

  function ReplayNext(before: Facts, e: Event): Facts {
    match e
    case Created(id, _, _, tokens) => before[id := (Some(tokens), false)]
    case TokensUpdated(id, _, next) => before[id := (Some(next), if id in before then before[id].1 else false)]
    case ArchivedSet(id, _, next) => before[id := (if id in before then before[id].0 else None, next)]
    case Deleted(id, _) => before - {id}
  }

  function Replay(audit: seq<Event>): Facts {
    if audit == [] then map[] else ReplayNext(Replay(audit[..|audit| - 1]), audit[|audit| - 1])
  }

  function FactsOf(rows: Rows): Facts {
    map id | id in rows :: (rows[id].tokens, rows[id].archived)
  }

  /** The two CHECK constraints of the table, and the declared upper bound. */
  predicate RowCheck(row: OverlayRow) {
    row.tokens.Some? ==>
      row.kind.Some? && (if row.kind == Some(OneTime) then 1 else 0) <= row.tokens.value <= PRODUCT_TOKENS_MAX
  }

  ghost predicate Inv(st: State) {
    && (forall id :: id in st.rows ==> RowCheck(st.rows[id]))
    && Replay(st.audit) == FactsOf(st.rows)
  }

  lemma ReplaySnoc(audit: seq<Event>, e: Event)
    ensures Replay(audit + [e]) == ReplayNext(Replay(audit), e)
  {
    assert (audit + [e])[..|audit|] == audit;
  }

  lemma PatchKeepsChecks(st: State, source: Option<SourceRow>, id: string, r: PatchRequest, now: Stamp)
    requires Inv(st)
    ensures forall p :: p in PatchSpec(st, source, id, r, now).rows ==> RowCheck(PatchSpec(st, source, id, r, now).rows[p])
  {
    hide Replay, FactsOf;
  }

  lemma PatchKeepsReplay(st: State, source: Option<SourceRow>, id: string, r: PatchRequest, now: Stamp)
    requires Inv(st)
    ensures Replay(PatchSpec(st, source, id, r, now).audit) == FactsOf(PatchSpec(st, source, id, r, now).rows)
  {
    hide Replay, RowCheck, TokensRefusal;
    var after := PatchSpec(st, source, id, r, now);
    if after != st {
      var row := Merged(source, st.rows, id).value;
      var first := if TokensChanged(st.rows, id, r) then st.audit + [TokensUpdated(id, Visible(row), r.tokens.value)] else st.audit;
      if TokensChanged(st.rows, id, r) {
        ReplaySnoc(st.audit, TokensUpdated(id, Visible(row), r.tokens.value));
      }
      if ArchivedChanged(st.rows, id, r) {
        ReplaySnoc(first, ArchivedSet(id, row.archived, r.archived.value));
      }
      hide Merged, Visible;
      assert after.audit == if ArchivedChanged(st.rows, id, r) then first + [ArchivedSet(id, row.archived, r.archived.value)] else first;
    }
  }

  lemma PatchKeepsInv(st: State, source: Option<SourceRow>, id: string, r: PatchRequest, now: Stamp)
    requires Inv(st)
    ensures Inv(PatchSpec(st, source, id, r, now))
  {
    PatchKeepsChecks(st, source, id, r, now);
    PatchKeepsReplay(st, source, id, r, now);
    hide PatchSpec, RowCheck, Replay, FactsOf;
  }

  lemma StepKeepsInv(st: State, cfg: Config, catalog: map<string, SourceRow>, op: Op)
    requires Inv(st)
    ensures Inv(Step(st, cfg, catalog, op))
  {
    hide Replay, PatchSpec, Merged, SourceOf, BadId, Strip;
    var source := SourceOf(cfg, catalog, Target(op));
    match op
    case Create(r, now) =>
      if CreateRefusal(st, source, r).None? {
        ReplaySnoc(st.audit, Created(Strip(r.id), r.name, r.kind, r.tokens));
        var after := CreateSpec(st, source, r, now);
        assert Replay(after.audit) == FactsOf(after.rows);
      }
    case Patch(id, r, now) =>
      PatchKeepsInv(st, source, id, r, now);
    case Delete(id) =>
      if DeleteRefusal(st, source, id).None? {
        ReplaySnoc(st.audit, Deleted(id, st.rows[id]));
        var after := DeleteSpec(st, source, id);
        assert Replay(after.audit) == FactsOf(after.rows);
      }
  }

  /** Every reachable row satisfies the table's CHECKs, and the trail replays to the stored facts. */
  lemma {:induction false} RunKeepsInv(st: State, cfg: Config, catalog: map<string, SourceRow>, ops: seq<Op>)
    requires Inv(st)
    ensures Inv(Run(st, cfg, catalog, ops))
    decreases |ops|
  {
    if ops != [] {
      RunKeepsInv(st, cfg, catalog, ops[..|ops| - 1]);
      StepKeepsInv(Run(st, cfg, catalog, ops[..|ops| - 1]), cfg, catalog, ops[|ops| - 1]);
    }
  }

  /** Number and flag of a row as facts that can be absent. */
  function TokensOf(rows: Rows, id: string): Option<int> {
    if id in rows then rows[id].tokens else None
  }

  function FlagOf(rows: Rows, id: string): Option<bool> {
    if id in rows then Some(rows[id].archived) else None
  }

  /** Write and trail are paired: an operation leaves the rows (their stamps too) as they were exactly
      when it leaves the trail as it was, it never rewrites the trail, and it touches no other row. */
  lemma WriteIffAudit(st: State, cfg: Config, catalog: map<string, SourceRow>, op: Op)
    ensures Step(st, cfg, catalog, op).rows == st.rows <==> Step(st, cfg, catalog, op).audit == st.audit
    ensures st.audit <= Step(st, cfg, catalog, op).audit
    ensures Step(st, cfg, catalog, op).rows - {Target(op)} == st.rows - {Target(op)}
  {
    hide SourceOf, Strip, BadId, Merged, TokensRefusal;
    var id := Target(op);
    var after := Step(st, cfg, catalog, op);
    match op
    case Create(r, now) =>
      if after != st {
        CreatedIsNew(st, SourceOf(cfg, catalog, id), r);
        assert id in after.rows;
      }
    case Delete(_) =>
      if after != st {
        assert id in st.rows && id !in after.rows;
      }
    case Patch(_, r, now) =>
      if after != st {
        PatchAudit(st, SourceOf(cfg, catalog, id), id, r, now);
        assert id in after.rows;
        assert after.rows[id] == PatchedRow(st.rows, id, r, Merged(SourceOf(cfg, catalog, id), st.rows, id).value.kind, now);
      }
  }

  lemma CreatedIsNew(st: State, source: Option<SourceRow>, r: CreateRequest)
    requires CreateRefusal(st, source, r).None?
    ensures Strip(r.id) !in st.rows && source.None?
  {
    hide Strip, BadId;
  }

  /** An edit appends exactly one event for each fact it changed, carrying the value shown before it and
      the value stored by it; an edit that changes no fact writes nothing at all. */
  lemma PatchAudit(st: State, source: Option<SourceRow>, id: string, r: PatchRequest, now: Stamp)
    ensures var after := PatchSpec(st, source, id, r, now);
            var tokens := if TokensOf(after.rows, id) != TokensOf(st.rows, id)
                          then [TokensUpdated(id, Visible(Merged(source, st.rows, id).value), TokensOf(after.rows, id).value)] else [];
            var flag := if r.archived.Some? && FlagOf(after.rows, id) != FlagOf(st.rows, id)
                        then [ArchivedSet(id, Merged(source, st.rows, id).value.archived, FlagOf(after.rows, id).value)] else [];
            && (TokensOf(after.rows, id) != TokensOf(st.rows, id) ==> Merged(source, st.rows, id).Some? && TokensOf(after.rows, id).Some?)
            && (FlagOf(after.rows, id) != FlagOf(st.rows, id) ==> Merged(source, st.rows, id).Some? && id in after.rows)
            && after.audit == st.audit + tokens + flag
            && (after == st <==> tokens + flag == [])
  {
    hide TokensRefusal;
  }

  // ----- What an edit does to prices -----

  /** The configuration the payment channels read, with these overlay rows. */
  function With(cfg: Config, st: State): Config {
    cfg.(overlay := st.rows)
  }

  ghost predicate SamePrice(a: Config, b: Config, product: string) {
    && OneTimeCredits(a, product) == OneTimeCredits(b, product)
    && (product in OneTimeIds(a) <==> product in OneTimeIds(b))
    && forall ch :: SubscriptionCredits(a, Some(product), ch) == SubscriptionCredits(b, Some(product), ch)
  }

  /** Hiding a product needs neither class nor number: it is refused only for an unknown product or a
      stale version, and whatever it does, no channel credits any product differently afterwards. */
  lemma ArchivedEditIsFree(st: State, cfg: Config, catalog: map<string, SourceRow>, id: string, flag: bool,
                           version: Option<Stamp>, now: Stamp, product: string)
    ensures var r := PatchRequest(None, Some(flag), None, version);
            var source := SourceOf(cfg, catalog, id);
            && (PatchRefusal(st, source, id, r).Some? <==>
                  || (id !in st.rows && source.None?)
                  || (version.Some? && !(id in st.rows && st.rows[id].updatedAt == version.value)))
            && SamePrice(With(cfg, st), With(cfg, PatchSpec(st, source, id, r, now)), product)
  {
    var r := PatchRequest(None, Some(flag), None, version);
    var after := PatchSpec(st, SourceOf(cfg, catalog, id), id, r, now);
    hide SourceOf, TokensRefusal, MapOrFallback;
    if product == id && after != st {
      assert after.rows[id].kind == (if id in st.rows then st.rows[id].kind else None);
      assert after.rows[id].tokens == (if id in st.rows then st.rows[id].tokens else None);
    }
  }

  /** An accepted number is the number credited: on the path its class selects, on every channel; and no
      other product's amounts move. */
  lemma AcceptedNumberIsCredited(st: State, cfg: Config, catalog: map<string, SourceRow>, id: string, r: PatchRequest,
                                 now: Stamp, product: string)
    requires forall p :: p in st.rows ==> RowCheck(st.rows[p])
    requires r.tokens.Some? && PatchRefusal(st, SourceOf(cfg, catalog, id), id, r).None?
    ensures var kind := Merged(SourceOf(cfg, catalog, id), st.rows, id).value.kind;
            var cfg' := With(cfg, PatchSpec(st, SourceOf(cfg, catalog, id), id, r, now));
            && (kind == Some(OneTime) ==> OneTimeCredits(cfg', id) == Some(r.tokens.value) && id in OneTimeIds(cfg'))
            && (kind == Some(SubscriptionKind) && id != "" ==>
                  id !in OneTimeIds(cfg') && forall ch :: SubscriptionCredits(cfg', Some(id), ch) == r.tokens.value)
            && kind.Some?
            && (product != id ==> SamePrice(With(cfg, st), cfg', product))
  {
    var source := SourceOf(cfg, catalog, id);
    var after := PatchSpec(st, source, id, r, now);
    hide SourceOf, TokensRefusal, MapOrFallback;
    assert id in after.rows && after.rows[id].tokens == Some(r.tokens.value);
    assert after.rows[id].kind == Merged(source, st.rows, id).value.kind;
  }

  /** The next read shows what was accepted, and what was not sent stays as it was shown. */
  lemma EditIsVisible(st: State, source: Option<SourceRow>, id: string, r: PatchRequest, now: Stamp)
    requires forall p :: p in st.rows ==> RowCheck(st.rows[p])
    requires PatchRefusal(st, source, id, r).None?
    ensures var before := Merged(source, st.rows, id).value;
            var shown := Merged(source, PatchSpec(st, source, id, r, now).rows, id);
            && shown.Some?
            && Visible(shown.value) == (if r.tokens.Some? then Some(r.tokens.value) else Visible(before))
            && shown.value.kind == before.kind
            && shown.value.archived == (if r.archived.Some? then r.archived.value else before.archived)
            && shown.value.own == before.own
  {
    hide TokensRefusal;
  }

  /** Deleting a product just created restores the rows; the instance's own products cannot be deleted. */
  lemma CreateThenDelete(st: State, source: Option<SourceRow>, r: CreateRequest, now: Stamp)
    requires CreateRefusal(st, source, r).None?
    ensures var made := CreateSpec(st, source, r, now);
            && DeleteRefusal(made, source, Strip(r.id)).None?
            && DeleteSpec(made, source, Strip(r.id)).rows == st.rows
            && |DeleteSpec(made, source, Strip(r.id)).audit| == |st.audit| + 2
  {
    CreatedIsNew(st, source, r);
    hide Strip, BadId, TokensRefusal;
    var id := Strip(r.id);
    var made := CreateSpec(st, source, r, now);
    assert made.rows - {id} == st.rows;
  }

  // ----- What a creation does -----

  /** A creation is refused for an avatar number, an id that is empty or holds whitespace once stripped, a
      product the catalogue already has, and a number outside 1 (0 for a subscription) to 1000000; and for
      nothing else. */
  lemma CreateRefusedIff(st: State, source: Option<SourceRow>, r: CreateRequest)
    ensures CreateRefusal(st, source, r).Some? <==>
            || r.avatarTokens.Some?
            || Strip(r.id) == "" || (exists k :: 0 <= k < |Strip(r.id)| && IsSpace(Strip(r.id)[k]))
            || Strip(r.id) in st.rows || source.Some?
            || r.tokens > 1_000_000 || (r.kind == OneTime && r.tokens == 0)
    ensures CreateRefusal(st, source, r) == Some(Duplicate) ==> Strip(r.id) in st.rows || source.Some?
    ensures CreateRefusal(st, source, r) == Some(UndeclaredBound) ==> r.kind == OneTime && r.tokens == 0
    ensures CreateRefusal(st, source, r) == Some(OutOfRange) ==> r.tokens > 1_000_000
  {
    hide Strip;
  }

  /** A created product is listed under its name with its class and number, not archived and as the operator's
      own; its number is the number credited on the path of its class; and no other product moves. */
  lemma CreatedNumberIsCredited(st: State, cfg: Config, catalog: map<string, SourceRow>, r: CreateRequest, now: Stamp, product: string)
    requires CreateRefusal(st, SourceOf(cfg, catalog, Strip(r.id)), r).None?
    ensures var id := Strip(r.id);
            var after := CreateSpec(st, SourceOf(cfg, catalog, id), r, now);
            var cfg' := With(cfg, after);
            && id in after.rows && after.rows[id].name == Some(r.name) && after.rows[id].updatedAt == now
            && Merged(SourceOf(cfg, catalog, id), after.rows, id) == Some(ProductRow(Some(r.tokens), Some(r.kind), false, true))
            && (r.kind == OneTime ==> OneTimeCredits(cfg', id) == Some(r.tokens) && id in OneTimeIds(cfg'))
            && (r.kind == SubscriptionKind ==>
                  id !in OneTimeIds(cfg') && forall ch :: SubscriptionCredits(cfg', Some(id), ch) == r.tokens)
            && (product != id ==> SamePrice(With(cfg, st), cfg', product))
            && after.audit == st.audit + [Created(id, r.name, r.kind, r.tokens)]
  {
    CreatedIsNew(st, SourceOf(cfg, catalog, Strip(r.id)), r);
    assert Strip(r.id) != "";
    hide Strip, SourceOf, MapOrFallback, TokensRefusal, BadId;
  }

  /** An edit is refused for an avatar number, for nothing to set, for an unknown product, for a stale version,
      and for a number without a class or outside its class's bounds; and for nothing else. */
  lemma PatchRefusedIff(st: State, source: Option<SourceRow>, id: string, r: PatchRequest)
    ensures PatchRefusal(st, source, id, r).Some? <==>
            var row := Merged(source, st.rows, id);
            || r.avatarTokens.Some?
            || (r.tokens.None? && r.archived.None?)
            || (id !in st.rows && source.None?)
            || (r.ifUpdatedAt.Some? && (id !in st.rows || st.rows[id].updatedAt != r.ifUpdatedAt.value))
            || (r.tokens.Some? && (row.None? || row.value.kind.None? || r.tokens.value > 1_000_000
                                   || (row.value.kind == Some(OneTime) && r.tokens.value == 0)))
  {
  }

  /** No edit changes the name the operator gave, and every edit that writes stamps the row. */
  lemma PatchKeepsName(st: State, source: Option<SourceRow>, id: string, r: PatchRequest, now: Stamp)
    ensures var after := PatchSpec(st, source, id, r, now);
            && (id in st.rows ==> id in after.rows && after.rows[id].name == st.rows[id].name)
            && (id !in st.rows && id in after.rows ==> after.rows[id].name == None)
            && (after != st ==> id in after.rows && after.rows[id].updatedAt == now)
  {
    hide TokensRefusal;
  }

  /** An instance knows a product from its token map first, then the Adapty map, then the CloudPayments map,
      then its static catalogue. */
  lemma FirstSourceWins(cfg: Config, catalog: map<string, SourceRow>, id: string)
    ensures id in cfg.tokenProducts ==> SourceOf(cfg, catalog, id) == Some(SourceRow(Some(cfg.tokenProducts[id]), Some(OneTime)))
    ensures id !in cfg.tokenProducts && id in cfg.adaptyProducts ==>
              SourceOf(cfg, catalog, id) == Some(SourceRow(Some(cfg.adaptyProducts[id]), Some(SubscriptionKind)))
    ensures id !in cfg.tokenProducts && id !in cfg.adaptyProducts && id in cfg.cloudProducts ==>
              SourceOf(cfg, catalog, id) == Some(SourceRow(Some(cfg.cloudProducts[id]), Some(SubscriptionKind)))
    ensures id !in cfg.tokenProducts && id !in cfg.adaptyProducts && id !in cfg.cloudProducts && id in catalog ==>
              SourceOf(cfg, catalog, id) == Some(catalog[id])
    ensures SourceOf(cfg, catalog, id) == None <==>
              id !in cfg.tokenProducts && id !in cfg.adaptyProducts && id !in cfg.cloudProducts && id !in catalog
  {
  }
}
