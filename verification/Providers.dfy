/** The two credits providers of an instance: which is active, which are enabled. */
module Providers {
  import opened Base
  import opened Text

  datatype Provider = OpenAI | Anthropic

  function Other(p: Provider): Provider {
    if p == OpenAI then Anthropic else OpenAI
  }

  /** The settings in force: environment with the operator's rows applied. */
  datatype Settings = Settings(
    llmProvider: string, llmProvidersRaw: string, openaiApiKey: string, anthropicApiKey: string,
    appstoreBundleId: string, appstoreEnvironment: string, skipCertChain: bool, testMode: bool)

  predicate Blank(s: string) {
    Strip(s) == ""
  }

  /** `openai`, or `anthropic` for anything else. */
  function Active(cfg: Settings): Provider {
    if Lower(Strip(cfg.llmProvider)) == "openai" then OpenAI else Anthropic
  }

  predicate KeyConfigured(cfg: Settings, p: Provider) {
    !Blank(if p == OpenAI then cfg.openaiApiKey else cfg.anthropicApiKey)
  }

  /** A part of the provider list, if it names a known provider. */
  function Named(part: string): Option<Provider> {
    var name := Lower(Strip(part));
    if name == "openai" then Some(OpenAI) else if name == "anthropic" then Some(Anthropic) else None
  }

  predicate ProvidersNamed(raw: string, p: Provider) {
    Some(p) in Mapped(Split(raw, ','))
  }

  function Mapped(parts: seq<string>): seq<Option<Provider>> {
    seq(|parts|, i requires 0 <= i < |parts| => Named(parts[i]))
  }

  /** The second provider is switched on. */
  predicate DualEnabled(cfg: Settings) {
    ProvidersNamed(cfg.llmProvidersRaw, Other(Active(cfg)))
  }

  /** The active provider, then the second one if it is switched on and has a key. */
  function CreditsProvidersSpec(cfg: Settings): seq<Provider> {
    var other := Other(Active(cfg));
    [Active(cfg)] + if DualEnabled(cfg) && KeyConfigured(cfg, other) then [other] else []
  }

  method CreditsProviders(cfg: Settings) returns (providers: seq<Provider>)
    ensures providers == CreditsProvidersSpec(cfg)
  {
    var active := Active(cfg);
    var extras: seq<Provider> := [];
    var parts := Split(cfg.llmProvidersRaw, ',');
    ghost var other := Other(active);
    for i := 0 to |parts|
      invariant extras == if Some(other) in Mapped(parts)[..i] && KeyConfigured(cfg, other) then [other] else []
    {
      var provider := Named(parts[i]);
      assert Mapped(parts)[..i + 1] == Mapped(parts)[..i] + [provider];
      if provider.None? || provider.value == active {
        continue;
      }
      if !KeyConfigured(cfg, provider.value) {
        continue;
      }
      if provider.value !in extras {
        extras := extras + [provider.value];
      }
    }
    assert Mapped(parts)[..|parts|] == Mapped(parts);
    providers := [active] + extras;
  }

  // ----- The list in text form -----

  /** The list the operator's switch writes names exactly the provider it means. */
  lemma SwitchNames(p: Provider, q: Provider)
    ensures ProvidersNamed(Spelled(p), q) <==> p == q
    ensures !ProvidersNamed("", q)
  {
    NoComma(Spelled(p));
    Spelling(p);
    assert Mapped([Spelled(p)]) == [Some(p)];
    assert Split("", ',') == [""];
    assert Mapped([""]) == [Named("")];
    assert Strip("") == "";
  }

  function Spelled(p: Provider): string {
    if p == OpenAI then "openai" else "anthropic"
  }

  lemma NoComma(s: string)
    requires ',' !in s
    ensures Split(s, ',') == [s]
  {
    SplitFirst(s, ',', |s|);
    assert s[..|s|] == s;
  }

  lemma Spelling(p: Provider)
    ensures Named(Spelled(p)) == Some(p) && ',' !in Spelled(p)
  {
    var s := Spelled(p);
    assert StripLeft(s) == s && StripRight(s) == s;
    assert Lower(s) == s;
  }

  /** A text spells a provider's name: in any case and with any whitespace around. */
  predicate Spells(text: string, p: Provider) {
    match p
    case OpenAI => Lower(Strip(text)) == "openai"
    case Anthropic => Lower(Strip(text)) == "anthropic"
  }

  /** An instance is an OpenAI one iff its setting spells that name, and a list names a provider iff one of its
      comma-separated parts spells it. */
  lemma NamesAreSpelled(cfg: Settings, p: Provider)
    ensures Active(cfg) == OpenAI <==> Spells(cfg.llmProvider, OpenAI)
    ensures ProvidersNamed(cfg.llmProvidersRaw, p) <==>
            exists part :: part in Split(cfg.llmProvidersRaw, ',') && Spells(part, p)
  {
    hide Lower, Strip, Split;
    var parts := Split(cfg.llmProvidersRaw, ',');
    if part :| part in parts && Spells(part, p) {
      var i :| 0 <= i < |parts| && parts[i] == part;
      assert Mapped(parts)[i] == Some(p);
    }
    if Some(p) in Mapped(parts) {
      var i :| 0 <= i < |parts| && Mapped(parts)[i] == Some(p);
      assert parts[i] in parts && Spells(parts[i], p);
    }
  }
}
