/** The operator's provider, key and StoreKit edits: rows applied over the environment, and the checks
    that refuse an edit before it is written. */
module ProviderKeys {
  import opened Base
  import opened Providers

  const CREDENTIAL_MAX_LENGTH := 512
  const BUNDLE_ID_MAX_LENGTH := 255

  datatype StoreMode = Sandbox | Production

  /** The rows the operator has written; an absent row leaves the environment in force. */
  datatype Overlay = Overlay(
    provider: Option<Provider>, dual: Option<bool>, mode: Option<StoreMode>, bundle: Option<string>,
    openaiKey: Option<string>, anthropicKey: Option<string>)

  /** What the server itself provides. */
  datatype Server = Server(env: Settings, appleRootsLoaded: bool, masterKey: bool)

  datatype Edit =
    | SetProvider(name: string)
    | SetDual(on: bool)
    | SetMode(mode: StoreMode)
    | SetBundle(bundle: string)
    | SetKey(provider: Provider, key: Option<string>)

  datatype Refusal =
    | TypeMismatch | OutOfRange | UndeclaredBound | NoKey(provider: Provider)
    | BundleRequired | RootsMissing | MasterKeyMissing

  function Or<T>(row: Option<T>, otherwise: T): T {
    if row.Some? then row.value else otherwise
  }

  /** The settings in force. The switch fills the list with the provider that is not the active one. */
  function Effective(env: Settings, o: Overlay): Settings {
    var named := env.(llmProvider := if o.provider.Some? then Spelled(o.provider.value) else env.llmProvider);
    var listed := if o.dual.None? then named
                  else named.(llmProvidersRaw := if o.dual.value then Spelled(Other(Active(named))) else "");
    var moded := if o.mode.None? then listed
                 else listed.(appstoreEnvironment := if o.mode.value == Production then "production" else "sandbox",
                              skipCertChain := o.mode.value != Production, testMode := o.mode.value != Production);
    moded.(openaiApiKey := Or(o.openaiKey, env.openaiApiKey),
           anthropicApiKey := Or(o.anthropicKey, env.anthropicApiKey),
           appstoreBundleId := Or(o.bundle, env.appstoreBundleId))
  }

  /** The StoreKit mode an environment amounts to, if it amounts to one. */
  function EnvMode(cfg: Settings): Option<StoreMode> {
    if Lower(Strip(cfg.appstoreEnvironment)) == "production" then
      if !cfg.testMode && !Blank(cfg.appstoreBundleId) then Some(Production) else None
    else if cfg.skipCertChain && cfg.testMode && Blank(cfg.appstoreBundleId) then Some(Sandbox)
    else None
  }

  function ModeInForce(env: Settings, o: Overlay): Option<StoreMode> {
    if o.mode.Some? then o.mode else EnvMode(Effective(env, o))
  }

  function ProviderOf(name: string): Option<Provider> {
    if name == "openai" then Some(OpenAI) else if name == "anthropic" then Some(Anthropic) else None
  }

  predicate UndeclaredCharacter(c: char) {
    IsSpace(c) || c < ' ' || c == '\U{007F}'
  }

  /** What the edit writes. */
  function Applied(o: Overlay, e: Edit): Overlay {
    match e
    case SetProvider(name) => if ProviderOf(name).Some? then o.(provider := ProviderOf(name)) else o
    case SetDual(on) => o.(dual := Some(on))
    case SetMode(mode) => o.(mode := Some(mode))
    case SetBundle(bundle) => o.(bundle := Some(bundle))
    case SetKey(p, key) => if p == OpenAI then o.(openaiKey := key) else o.(anthropicKey := key)
  }

  /** Bounds of the value itself. */
  function ValueRefusal(e: Edit): Option<Refusal> {
    match e
    case SetProvider(name) => if ProviderOf(name).None? then Some(TypeMismatch) else None
    case SetBundle(bundle) => if |bundle| > BUNDLE_ID_MAX_LENGTH then Some(OutOfRange) else None
    case SetKey(_, Some(key)) =>
      if |key| > CREDENTIAL_MAX_LENGTH then Some(OutOfRange)
      else if exists k :: 0 <= k < |key| && UndeclaredCharacter(key[k]) then Some(UndeclaredBound)
      else None
    case _ => None
  }

  predicate Required(cfg: Settings, p: Provider) {
    p == Active(cfg) || (DualEnabled(cfg) && p == Other(Active(cfg)))
  }

  /** Bounds between this value and its neighbours, on the settings the edit would put in force. */
  function NeighbourRefusal(server: Server, o: Overlay, e: Edit): Option<Refusal> {
    var cfg := Effective(server.env, Applied(o, e));
    match e
    case SetProvider(_) => if KeyConfigured(cfg, Active(cfg)) then None else Some(NoKey(Active(cfg)))
    case SetDual(on) =>
      if on && !KeyConfigured(cfg, Other(Active(cfg))) then Some(NoKey(Other(Active(cfg)))) else None
    case SetMode(mode) =>
      if mode != Production then None
      else if Blank(cfg.appstoreBundleId) then Some(BundleRequired)
      else if !server.appleRootsLoaded then Some(RootsMissing)
      else None
    case SetBundle(bundle) =>
      if Blank(bundle) && ModeInForce(server.env, Applied(o, e)) == Some(Production) then Some(BundleRequired) else None
    case SetKey(p, key) =>
      if Required(cfg, p) && !KeyConfigured(cfg, p) then Some(NoKey(p))
      else if key.Some? && !server.masterKey then Some(MasterKeyMissing)
      else None
  }

  function EditRefusal(server: Server, o: Overlay, e: Edit): Option<Refusal> {
    if ValueRefusal(e).Some? then ValueRefusal(e) else NeighbourRefusal(server, o, e)
  }

  function Next(server: Server, o: Overlay, e: Edit): Overlay {
    if EditRefusal(server, o, e).Some? then o else Applied(o, e)
  }

  class InstanceConfig {
    var overlay: Overlay
    const server: Server

    constructor (server: Server, overlay: Overlay)
      ensures this.server == server && this.overlay == overlay
    {
      this.server, this.overlay := server, overlay;
    }

    /** `PATCH /settings/{id}` for the provider and StoreKit rows. */
    method PatchSetting(e: Edit) returns (refusal: Option<Refusal>)
      requires !e.SetKey?
      modifies this
      ensures refusal == EditRefusal(server, old(overlay), e)
      ensures overlay == Next(server, old(overlay), e)
    {
      refusal := ValueRefusal(e);
      if refusal.Some? {
        return;
      }
      var snapshot := Applied(overlay, e);
      var cfg := Effective(server.env, snapshot);
      match e {
        case SetProvider(_) =>
          var provider := Active(cfg);
          if !KeyConfigured(cfg, provider) {
            return Some(NoKey(provider));
          }
        case SetDual(on) =>
          if on {
            var second := Other(Active(cfg));
            if !KeyConfigured(cfg, second) {
              return Some(NoKey(second));
            }
          }
        case SetMode(mode) =>
          if mode == Production {
            if Blank(cfg.appstoreBundleId) {
              return Some(BundleRequired);
            }
            if !server.appleRootsLoaded {
              return Some(RootsMissing);
            }
          }
        case SetBundle(bundle) =>
          var mode := ModeInForce(server.env, snapshot);
          if Blank(bundle) && mode == Some(Production) {
            return Some(BundleRequired);
          }
      }
      overlay := snapshot;
    }

    /** `PATCH /credentials/{id}` for a primary key: a string sets the row, `None` removes it. */
    method PatchCredential(p: Provider, key: Option<string>) returns (refusal: Option<Refusal>)
      modifies this
      ensures refusal == EditRefusal(server, old(overlay), SetKey(p, key))
      ensures overlay == Next(server, old(overlay), SetKey(p, key))
    {
      refusal := ValueRefusal(SetKey(p, key));
      if refusal.Some? {
        return;
      }
      var snapshot := Applied(overlay, SetKey(p, key));
      var cfg := Effective(server.env, snapshot);
      var active := Active(cfg);
      var required := p == active || (DualEnabled(cfg) && p == Other(active));
      if required && !KeyConfigured(cfg, p) {
        return Some(NoKey(p));
      }
      if key.Some? && !server.masterKey {
        return Some(MasterKeyMissing);
      }
      overlay := snapshot;
    }
  }

  // ----- Key safety -----

  /** The active provider has a key, and with two providers so does the second. */
  predicate Safe(cfg: Settings) {
    KeyConfigured(cfg, Active(cfg)) && (DualEnabled(cfg) ==> KeyConfigured(cfg, Other(Active(cfg))))
  }

  lemma ActiveIs(env: Settings, o: Overlay)
    ensures Active(Effective(env, o)) == Or(o.provider, Active(env))
  {
    Spelling(OpenAI);
    Spelling(Anthropic);
  }

  lemma DualIs(env: Settings, o: Overlay)
    ensures DualEnabled(Effective(env, o)) <==>
            if o.dual.Some? then o.dual.value
            else ProvidersNamed(env.llmProvidersRaw, Other(Or(o.provider, Active(env))))
  {
    ActiveIs(env, o);
    var p := Other(Or(o.provider, Active(env)));
    ActiveIs(env, o.(dual := None));
    SwitchNames(p, p);
    hide ProvidersNamed, Spelled;
  }

  lemma KeyIs(env: Settings, o: Overlay, p: Provider)
    ensures KeyConfigured(Effective(env, o), p) <==>
            !Blank(if p == OpenAI then Or(o.openaiKey, env.openaiApiKey) else Or(o.anthropicKey, env.anthropicApiKey))
  {
  }

  /** The checks are exact: from a safe instance, an edit whose value is admissible is refused for a missing
      key exactly when the settings it would put in force are unsafe. */
  lemma RefusedIffUnsafe(server: Server, o: Overlay, e: Edit)
    requires Safe(Effective(server.env, o)) && ValueRefusal(e).None?
    ensures (EditRefusal(server, o, e).Some? && EditRefusal(server, o, e).value.NoKey?)
            <==> !Safe(Effective(server.env, Applied(o, e)))
  {
    var next := Applied(o, e);
    ActiveIs(server.env, o);
    ActiveIs(server.env, next);
    DualIs(server.env, o);
    DualIs(server.env, next);
    KeyIs(server.env, o, OpenAI);
    KeyIs(server.env, o, Anthropic);
    KeyIs(server.env, next, OpenAI);
    KeyIs(server.env, next, Anthropic);
    hide Effective, Active, DualEnabled, KeyConfigured, Blank, ProvidersNamed;
  }

  function Run(server: Server, o: Overlay, edits: seq<Edit>): Overlay
    decreases |edits|
  {
    if edits == [] then o else Next(server, Run(server, o, edits[..|edits| - 1]), edits[|edits| - 1])
  }

  /** Every run of edits, accepted or refused, leaves a safe instance safe: through provider switches with
      two providers on, and through keys cleared back to the environment. */
  lemma {:induction false} RunKeepsSafe(server: Server, o: Overlay, edits: seq<Edit>)
    requires Safe(Effective(server.env, o))
    ensures Safe(Effective(server.env, Run(server, o, edits)))
    decreases |edits|
  {
    hide Safe, Effective, Applied, NeighbourRefusal, ValueRefusal;
    if edits != [] {
      var before := Run(server, o, edits[..|edits| - 1]);
      var e := edits[|edits| - 1];
      RunKeepsSafe(server, o, edits[..|edits| - 1]);
      if ValueRefusal(e).None? {
        RefusedIffUnsafe(server, before, e);
      }
    }
  }

  /** On a safe instance every provider that may serve credits chats has a key, and the second one serves
      exactly when it is switched on. */
  lemma SafeServes(cfg: Settings)
    requires Safe(cfg)
    ensures forall p :: p in CreditsProvidersSpec(cfg) ==> KeyConfigured(cfg, p)
    ensures Other(Active(cfg)) in CreditsProvidersSpec(cfg) <==> DualEnabled(cfg)
  {
    hide KeyConfigured, DualEnabled, Active;
  }

  /** Switching provider while the operator's switch is on swaps the two, it drops neither. */
  lemma SwitchSwaps(server: Server, o: Overlay)
    requires Safe(Effective(server.env, o)) && o.dual == Some(true)
    ensures var served := CreditsProvidersSpec(Effective(server.env, o));
            var edit := SetProvider(Spelled(Other(Active(Effective(server.env, o)))));
            && EditRefusal(server, o, edit).None?
            && |served| == 2
            && CreditsProvidersSpec(Effective(server.env, Next(server, o, edit))) == [served[1], served[0]]
  {
    var cfg := Effective(server.env, o);
    var edit := SetProvider(Spelled(Other(Active(cfg))));
    var next := Applied(o, edit);
    RefusedIffUnsafe(server, o, edit);
    ActiveIs(server.env, o);
    ActiveIs(server.env, next);
    DualIs(server.env, o);
    DualIs(server.env, next);
    KeyIs(server.env, o, OpenAI);
    KeyIs(server.env, o, Anthropic);
    KeyIs(server.env, next, OpenAI);
    KeyIs(server.env, next, Anthropic);
    hide Effective, Active, DualEnabled, KeyConfigured, Blank, ProvidersNamed;
  }

  // ----- StoreKit -----

  /** A mode row of Production comes with a bundle id. */
  predicate ProductionHasBundle(server: Server, o: Overlay) {
    o.mode == Some(Production) ==> !Blank(Effective(server.env, o).appstoreBundleId)
  }

  lemma EditKeepsBundle(server: Server, o: Overlay, e: Edit)
    requires ProductionHasBundle(server, o)
    ensures ProductionHasBundle(server, Next(server, o, e))
  {
    hide Active, Blank, KeyConfigured, DualEnabled;
  }

  lemma {:induction false} RunKeepsBundle(server: Server, o: Overlay, edits: seq<Edit>)
    requires ProductionHasBundle(server, o)
    ensures ProductionHasBundle(server, Run(server, o, edits))
    decreases |edits|
  {
    if edits != [] {
      RunKeepsBundle(server, o, edits[..|edits| - 1]);
      EditKeepsBundle(server, Run(server, o, edits[..|edits| - 1]), edits[|edits| - 1]);
    }
  }

  /** The bundle check needs the mode row. A blank bundle is refused iff that row says Production: when the
      environment alone puts Production in force, the check reads the mode with the new bundle already
      applied, finds no mode, and lets the bundle go. */
  lemma BlankBundleRefusedIff(server: Server, o: Overlay, bundle: string)
    requires Blank(bundle) && |bundle| <= BUNDLE_ID_MAX_LENGTH
    ensures EditRefusal(server, o, SetBundle(bundle)).Some? <==> o.mode == Some(Production)
    ensures o.mode.None? && ModeInForce(server.env, o) == Some(Production) ==>
              var cfg := Effective(server.env, Next(server, o, SetBundle(bundle)));
              Lower(Strip(cfg.appstoreEnvironment)) == "production" && !cfg.testMode && Blank(cfg.appstoreBundleId)
  {
    hide Active, Blank;
  }

  /** An instance in Production by environment, before and after such an edit. */
  lemma ProductionWithoutBundle(env: Settings)
    requires env.appstoreEnvironment == "production" && !env.testMode && env.appstoreBundleId == "com.app"
    ensures var server := Server(env, true, true);
            var o := Overlay(None, None, None, None, None, None);
            && ModeInForce(env, o) == Some(Production)
            && EditRefusal(server, o, SetBundle("")).None?
            && Effective(env, Next(server, o, SetBundle(""))).appstoreEnvironment == "production"
            && Effective(env, Next(server, o, SetBundle(""))).appstoreBundleId == ""
  {
    var server := Server(env, true, true);
    var o := Overlay(None, None, None, None, None, None);
    assert Lower("production") == "production";
    assert StripLeft("production") == "production" && StripRight("production") == "production";
    assert StripLeft("com.app") == "com.app" && StripRight("com.app") == "com.app";
    assert Strip("") == "";
    BlankBundleRefusedIff(server, o, "");
  }

  // ----- What the rows put in force -----

  /** Row by row: a provider row is that provider's name; the switch lists the other provider or nobody; a
      Production row turns test shortcuts off and a Sandbox row turns them on; a key or bundle row replaces
      the server's. What has no row stays as the server has it. */
  lemma RowsInForce(env: Settings, o: Overlay)
    ensures var cfg := Effective(env, o);
            && (o.provider == Some(OpenAI) ==> cfg.llmProvider == "openai")
            && (o.provider == Some(Anthropic) ==> cfg.llmProvider == "anthropic")
            && (o.provider == None ==> cfg.llmProvider == env.llmProvider)
            && (o.dual == Some(false) ==> cfg.llmProvidersRaw == "")
            && (o.dual == Some(true) ==> cfg.llmProvidersRaw == (if Active(cfg) == OpenAI then "anthropic" else "openai"))
            && (o.dual == None ==> cfg.llmProvidersRaw == env.llmProvidersRaw)
            && (o.mode == Some(Production) ==> cfg.appstoreEnvironment == "production" && !cfg.skipCertChain && !cfg.testMode)
            && (o.mode == Some(Sandbox) ==> cfg.appstoreEnvironment == "sandbox" && cfg.skipCertChain && cfg.testMode)
            && (o.mode == None ==> cfg.appstoreEnvironment == env.appstoreEnvironment
                                   && cfg.skipCertChain == env.skipCertChain && cfg.testMode == env.testMode)
            && cfg.openaiApiKey == (if o.openaiKey.Some? then o.openaiKey.value else env.openaiApiKey)
            && cfg.anthropicApiKey == (if o.anthropicKey.Some? then o.anthropicKey.value else env.anthropicApiKey)
            && cfg.appstoreBundleId == (if o.bundle.Some? then o.bundle.value else env.appstoreBundleId)
  {
    hide Lower, Strip;
  }

  /** A written edit sets its own row and no other; a key can also be taken back. */
  lemma EditWritesOneRow(o: Overlay, e: Edit)
    requires ValueRefusal(e).None?
    ensures match e
            case SetProvider(name) => Applied(o, e) == o.(provider := Some(if name == "openai" then OpenAI else Anthropic))
            case SetDual(on) => Applied(o, e) == o.(dual := Some(on))
            case SetMode(mode) => Applied(o, e) == o.(mode := Some(mode))
            case SetBundle(bundle) => Applied(o, e) == o.(bundle := Some(bundle))
            case SetKey(OpenAI, key) => Applied(o, e) == o.(openaiKey := key)
            case SetKey(Anthropic, key) => Applied(o, e) == o.(anthropicKey := key)
  {
  }

  /** The value alone is refused iff it names no provider, is a bundle id of more than 255 or a key of more than
      512 characters, or is a key with whitespace or a control character in it. */
  lemma ValueRefusedIff(e: Edit)
    ensures ValueRefusal(e).Some? <==>
            match e
            case SetProvider(name) => name != "openai" && name != "anthropic"
            case SetBundle(bundle) => |bundle| > 255
            case SetKey(_, Some(key)) => |key| > 512 || exists k :: 0 <= k < |key| && UndeclaredCharacter(key[k])
            case _ => false
  {
  }

  /** Switching to Production needs a bundle id and Apple's root certificates; switching to Sandbox needs
      nothing. */
  lemma ModeRefusedIff(server: Server, o: Overlay, mode: StoreMode)
    ensures var bundle := if o.bundle.Some? then o.bundle.value else server.env.appstoreBundleId;
            && (EditRefusal(server, o, SetMode(mode)) == Some(BundleRequired) <==> mode == Production && Strip(bundle) == "")
            && (EditRefusal(server, o, SetMode(mode)) == Some(RootsMissing) <==>
                  mode == Production && Strip(bundle) != "" && !server.appleRootsLoaded)
            && (EditRefusal(server, o, SetMode(mode)).None? <==>
                  mode == Sandbox || (Strip(bundle) != "" && server.appleRootsLoaded))
  {
    hide Strip, Lower;
  }

  /** A key is stored only under a master key; taking one back needs none. */
  lemma MasterKeyNeededIff(server: Server, o: Overlay, p: Provider, key: Option<string>)
    requires ValueRefusal(SetKey(p, key)).None? && Safe(Effective(server.env, Applied(o, SetKey(p, key))))
    ensures EditRefusal(server, o, SetKey(p, key)) == Some(MasterKeyMissing) <==> key.Some? && !server.masterKey
    ensures EditRefusal(server, o, SetKey(p, key)).None? <==> key.None? || server.masterKey
  {
    hide Effective, Active, KeyConfigured, DualEnabled;
  }
}
