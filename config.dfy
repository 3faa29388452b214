/**
 * The user configuration: the AI and image providers with their lookup
 * tables, and `Config::set`, which validates one `defaults.*` key and value
 * and stores the value.
 */
module Configuration {
  import opened Wrappers
  import opened Strings

  // ---------------------------------------------------------------------
  // Providers
  // ---------------------------------------------------------------------

  datatype AiProvider = Claude | Codex | Copilot | Ollama

  function DisplayName(p: AiProvider): string
  {
    match p
    case Claude => "Claude"
    case Codex => "Codex"
    case Copilot => "Copilot"
    case Ollama => "Ollama"
  }

  function ProviderDescription(p: AiProvider): string
  {
    match p
    case Claude => "Anthropic Claude via claude CLI"
    case Codex => "OpenAI Codex via codex CLI"
    case Copilot => "GitHub Copilot via gh CLI"
    case Ollama => "Local models via Ollama"
  }

  /** The command-line program each provider runs. */
  function BinaryName(p: AiProvider): string
  {
    match p
    case Claude => "claude"
    case Codex => "codex"
    case Copilot => "gh"
    case Ollama => "ollama"
  }

  /** The model used when none is configured: only Claude has one. */
  function DefaultModel(p: AiProvider): Option<string>
  {
    match p
    case Claude => Some("sonnet")
    case Codex => None
    case Copilot => None
    case Ollama => None
  }

  /** The providers, in the order they are offered. */
  function AllProviders(): seq<AiProvider>
  {
    [Claude, Codex, Copilot, Ollama]
  }

  datatype ImageGenProvider = OpenAi | Gemini

  function ImageDisplayName(p: ImageGenProvider): string
  {
    match p
    case OpenAi => "OpenAI (DALL-E)"
    case Gemini => "Google Gemini (Imagen)"
  }

  /** The environment variable an image provider's API key falls back to. */
  function EnvVarName(p: ImageGenProvider): string
  {
    match p
    case OpenAi => "OPENAI_API_KEY"
    case Gemini => "GEMINI_API_KEY"
  }

  /** Only Claude has a default model, and it is `sonnet`. */
  lemma DefaultModelOnlyClaude(p: AiProvider)
    ensures DefaultModel(p).Some? <==> p == Claude
    ensures DefaultModel(Claude) == Some("sonnet")
  {
  }

  /** The list of providers holds each provider exactly once. */
  lemma AllProvidersOnce(p: AiProvider)
    ensures |AllProviders()| == 4
    ensures p in AllProviders()
    ensures forall i, j :: 0 <= i < j < |AllProviders()| ==> AllProviders()[i] != AllProviders()[j]
  {
  }

  /** Different providers run different programs. */
  lemma BinaryNamesDistinct(p: AiProvider, q: AiProvider)
    requires p != q
    ensures BinaryName(p) != BinaryName(q)
  {
    var a, b := BinaryName(p), BinaryName(q);
    if |a| == |b| {
      assert a[0] != b[0];
    }
  }

  /** The two image providers read their keys from `OPENAI_API_KEY` and `GEMINI_API_KEY`, which differ. */
  lemma EnvVarNames(p: ImageGenProvider)
    ensures EnvVarName(p) == "OPENAI_API_KEY" || EnvVarName(p) == "GEMINI_API_KEY"
    ensures EnvVarName(OpenAi) != EnvVarName(Gemini)
  {
    assert EnvVarName(OpenAi)[0] != EnvVarName(Gemini)[0];
  }

  // ---------------------------------------------------------------------
  // The configuration
  // ---------------------------------------------------------------------

  /** The `defaults` section: each value is kept as the text it was set to. */
  datatype DefaultsConfig = DefaultsConfig(
    theme: Option<string>,
    transition: Option<string>,
    aspect: Option<string>,
    startMode: Option<string>)

  /** `DefaultsConfig::default`. */
  const EmptyDefaults: DefaultsConfig := DefaultsConfig(None, None, None, None)

  datatype AiConfig = AiConfig(provider: AiProvider, model: Option<string>)

  datatype ImageGenConfig = ImageGenConfig(provider: ImageGenProvider, apiKey: Option<string>)

  /** The keys `set` accepts, one per field of the `defaults` section. */
  datatype ConfigKey = ThemeKey | TransitionKey | AspectKey | StartModeKey

  const ThemeKeyName: string := "defaults.theme"
  const TransitionKeyName: string := "defaults.transition"
  const AspectKeyName: string := "defaults.aspect"
  const StartModeKeyName: string := "defaults.start_mode"

  /** The key a key name denotes, if any. */
  function KeyOf(key: string): Option<ConfigKey>
  {
    if key == ThemeKeyName then Some(ThemeKey)
    else if key == TransitionKeyName then Some(TransitionKey)
    else if key == AspectKeyName then Some(AspectKey)
    else if key == StartModeKeyName then Some(StartModeKey)
    else None
  }

  /** The field of the `defaults` section a key names. */
  function Field(d: DefaultsConfig, k: ConfigKey): Option<string>
  {
    match k
    case ThemeKey => d.theme
    case TransitionKey => d.transition
    case AspectKey => d.aspect
    case StartModeKey => d.startMode
  }

  /** The `defaults` section with the field a key names set to a value. */
  function WithField(d: DefaultsConfig, k: ConfigKey, value: string): (r: DefaultsConfig)
    ensures Field(r, k) == Some(value)
    ensures forall other :: other != k ==> Field(r, other) == Field(d, other)
  {
    match k
    case ThemeKey => d.(theme := Some(value))
    case TransitionKey => d.(transition := Some(value))
    case AspectKey => d.(aspect := Some(value))
    case StartModeKey => d.(startMode := Some(value))
  }

  /** One more than the largest `usize` of a 64-bit target. */
  const UsizeLimit: nat := 0x1_0000_0000_0000_0000

  /** `str::parse::<usize>`: an optional `+`, then at least one decimal digit, with a value that fits. */
  function ParseUsize(s: string): (r: Option<nat>)
    ensures r.Some? ==> r.value < UsizeLimit
  {
    var digits := if |s| > 0 && s[0] == '+' then s[1..] else s;
    if |digits| > 0 && AllDigits(digits) && DigitsValue(digits) < UsizeLimit then Some(DigitsValue(digits)) else None
  }

  /** Whether `set` accepts a value for a key. */
  predicate Accepts(k: ConfigKey, value: string)
  {
    match k
    case ThemeKey => value == "light" || value == "dark"
    case TransitionKey => value == "fade" || value == "slide" || value == "spatial" || value == "none"
    case AspectKey => value == "16:9" || value == "4:3" || value == "16:10"
    case StartModeKey => value == "first" || value == "overview" || ParseUsize(value).Some?
  }

  /** Why `set` refused a key or a value. */
  datatype SetError =
    | InvalidTheme(value: string)
    | InvalidTransition(value: string)
    | InvalidAspect(value: string)
    | InvalidStartMode(value: string)
    | UnknownKey(key: string)

  /** The error for a value a key does not accept. */
  function Rejection(k: ConfigKey, value: string): SetError
  {
    match k
    case ThemeKey => InvalidTheme(value)
    case TransitionKey => InvalidTransition(value)
    case AspectKey => InvalidAspect(value)
    case StartModeKey => InvalidStartMode(value)
  }

  /** The text of an error. */
  function Message(e: SetError): string
  {
    match e
    case InvalidTheme(v) => "Invalid theme: " + v + ". Must be 'light' or 'dark'."
    case InvalidTransition(v) => "Invalid transition: " + v + ". Must be 'fade', 'slide', 'spatial', or 'none'."
    case InvalidAspect(v) => "Invalid aspect ratio: " + v + ". Must be '16:9', '4:3', or '16:10'."
    case InvalidStartMode(v) => "Invalid start_mode: " + v + ". Must be 'first', 'overview', or a slide number."
    case UnknownKey(k) =>
      "Unknown config key: " + k + ". Valid keys: defaults.theme, defaults.transition, defaults.aspect, defaults.start_mode"
  }

  /**
   * What `set` does to the `defaults` section: the error for an unknown key
   * or a refused value, and otherwise the section, created empty when
   * absent, with the named field set to the value.
   */
  function SetDefaults(defaults: Option<DefaultsConfig>, key: string, value: string): Result<DefaultsConfig, SetError>
  {
    match KeyOf(key)
    case None => Err(UnknownKey(key))
    case Some(k) =>
      if Accepts(k, value) then Ok(WithField(defaults.GetOr(EmptyDefaults), k, value)) else Err(Rejection(k, value))
  }

  /** `Config`: the three optional sections of the configuration file. */
  class Config {
    var defaults: Option<DefaultsConfig>
    var ai: Option<AiConfig>
    var imageGeneration: Option<ImageGenConfig>

    /** `Config::default`: every section absent. */
    constructor ()
      ensures defaults == None && ai == None && imageGeneration == None
    {
      defaults, ai, imageGeneration := None, None, None;
    }

    /**
     * `Config::set`: on an error nothing changes; otherwise the `defaults`
     * section becomes what `SetDefaults` gives, and the other sections are untouched.
     */
    method Set(key: string, value: string) returns (r: Result<(), SetError>)
      modifies this
      ensures ai == old(ai) && imageGeneration == old(imageGeneration)
      ensures SetDefaults(old(defaults), key, value).Err? ==>
        r == Err(SetDefaults(old(defaults), key, value).error) && defaults == old(defaults)
      ensures SetDefaults(old(defaults), key, value).Ok? ==>
        r == Ok(()) && defaults == Some(SetDefaults(old(defaults), key, value).value)
    {
      if key == ThemeKeyName {
        if !(value == "light" || value == "dark") {
          return Err(InvalidTheme(value));
        }
        var d := defaults.GetOr(EmptyDefaults);
        defaults := Some(d.(theme := Some(value)));
      } else if key == TransitionKeyName {
        if !(value == "fade" || value == "slide" || value == "spatial" || value == "none") {
          return Err(InvalidTransition(value));
        }
        var d := defaults.GetOr(EmptyDefaults);
        defaults := Some(d.(transition := Some(value)));
      } else if key == AspectKeyName {
        if !(value == "16:9" || value == "4:3" || value == "16:10") {
          return Err(InvalidAspect(value));
        }
        var d := defaults.GetOr(EmptyDefaults);
        defaults := Some(d.(aspect := Some(value)));
      } else if key == StartModeKeyName {
        if value != "first" && value != "overview" && ParseUsize(value).None? {
          return Err(InvalidStartMode(value));
        }
        var d := defaults.GetOr(EmptyDefaults);
        defaults := Some(d.(startMode := Some(value)));
      } else {
        return Err(UnknownKey(key));
      }
      return Ok(());
    }
  }

  // ---------------------------------------------------------------------
  // Properties
  // ---------------------------------------------------------------------

  /** `set` fails exactly for an unknown key or a value the key does not accept, and names the cause. */
  lemma SetFailsIff(defaults: Option<DefaultsConfig>, key: string, value: string)
    ensures SetDefaults(defaults, key, value).Err? <==> KeyOf(key).None? || !Accepts(KeyOf(key).value, value)
    ensures KeyOf(key).None? ==> SetDefaults(defaults, key, value) == Err(UnknownKey(key))
    ensures KeyOf(key).Some? && !Accepts(KeyOf(key).value, value) ==>
      SetDefaults(defaults, key, value) == Err(Rejection(KeyOf(key).value, value))
  {
  }

  /**
   * A successful `set` stores the value in the named field and keeps every
   * other field; fields of a section that was absent start out empty.
   */
  lemma SetOnlyNamedField(defaults: Option<DefaultsConfig>, key: string, value: string, other: ConfigKey)
    requires SetDefaults(defaults, key, value).Ok?
    ensures KeyOf(key).Some?
    ensures Field(SetDefaults(defaults, key, value).value, KeyOf(key).value) == Some(value)
    ensures other != KeyOf(key).value ==>
      Field(SetDefaults(defaults, key, value).value, other) == (if defaults.Some? then Field(defaults.value, other) else None)
  {
  }

  /** Setting the same key to the same value twice is the same as setting it once. */
  lemma SetTwice(defaults: Option<DefaultsConfig>, key: string, value: string)
    requires SetDefaults(defaults, key, value).Ok?
    ensures SetDefaults(Some(SetDefaults(defaults, key, value).value), key, value) == SetDefaults(defaults, key, value)
  {
    var k := KeyOf(key).value;
    var d := defaults.GetOr(EmptyDefaults);
    var once := WithField(d, k, value);
    assert WithField(once, k, value) == once by {
      match k
      case ThemeKey =>
      case TransitionKey =>
      case AspectKey =>
      case StartModeKey =>
    }
  }

  /** Successful `set`s of two different keys can be made in either order. */
  lemma SetCommutes(defaults: Option<DefaultsConfig>, key1: string, value1: string, key2: string, value2: string)
    requires KeyOf(key1).Some? && KeyOf(key2).Some? && KeyOf(key1) != KeyOf(key2)
    requires Accepts(KeyOf(key1).value, value1) && Accepts(KeyOf(key2).value, value2)
    ensures SetDefaults(Some(SetDefaults(defaults, key1, value1).value), key2, value2).Ok?
    ensures SetDefaults(Some(SetDefaults(defaults, key2, value2).value), key1, value1).Ok?
    ensures SetDefaults(Some(SetDefaults(defaults, key1, value1).value), key2, value2).value
         == SetDefaults(Some(SetDefaults(defaults, key2, value2).value), key1, value1).value
  {
    var k1, k2 := KeyOf(key1).value, KeyOf(key2).value;
    var d := defaults.GetOr(EmptyDefaults);
    var a := WithField(WithField(d, k1, value1), k2, value2);
    var b := WithField(WithField(d, k2, value2), k1, value1);
    assert forall k :: Field(a, k) == Field(b, k);
    assert a == b by {
      assert Field(a, ThemeKey) == Field(b, ThemeKey) && Field(a, TransitionKey) == Field(b, TransitionKey);
      assert Field(a, AspectKey) == Field(b, AspectKey) && Field(a, StartModeKey) == Field(b, StartModeKey);
    }
  }

  /** The key names `set` accepts are exactly the four `defaults.*` names. */
  lemma KeyNames(key: string)
    ensures KeyOf(key).Some? <==>
      key == "defaults.theme" || key == "defaults.transition" || key == "defaults.aspect" || key == "defaults.start_mode"
  {
  }

  /** Every slide number a 64-bit `usize` holds, written in decimal, parses back to itself, with or without a `+`. */
  lemma ParseUsizeOfDecimal(n: nat)
    requires n < UsizeLimit
    ensures ParseUsize(NatToString(n)) == Some(n)
    ensures ParseUsize("+" + NatToString(n)) == Some(n)
  {
    var s := NatToString(n);
    DigitsValueOfNatToString(n);
    assert s[0] != '+';
    assert ("+" + s)[1..] == s;
  }

  /** Neither a sign alone, nor a minus sign, nor the empty text is a slide number. */
  lemma ParseUsizeRejects(s: string)
    ensures ParseUsize("") == None && ParseUsize("+") == None
    ensures ParseUsize("-" + s) == None
  {
    assert ("-" + s)[0] == '-';
    assert !IsAsciiDigit('-');
  }

  /** The start modes `first` and `overview` are not slide numbers. */
  lemma ParseUsizeRejectsWords()
    ensures ParseUsize("first") == None && ParseUsize("overview") == None
  {
    assert !IsAsciiDigit("first"[0]) && !IsAsciiDigit("overview"[0]);
  }

  /** Any decimal slide number a 64-bit `usize` holds is accepted as a start mode. */
  lemma StartModeAcceptsSlideNumber(n: nat)
    requires n < UsizeLimit
    ensures Accepts(StartModeKey, NatToString(n))
  {
    ParseUsizeOfDecimal(n);
  }
}
