/** `getConfig`: the session-setup configuration built from the settings
    store, with its defaults and the spoken-language sentence appended to
    the system instruction. */
module Settings {
  import opened Wrappers

  /** Generation parameters, passed through as stored (their parsing is not
      modelled). */
  datatype Generation = Generation(temperature: real, topP: real, topK: int)

  /** The settings-store entries `getConfig` reads; `None` is a missing key. */
  datatype Store = Store(
    systemInstructions: Option<string>,
    language: Option<string>,
    voiceName: Option<string>,
    generation: Generation)

  datatype SafetySetting = SafetySetting(category: string, threshold: string)

  /** The `setup` payload. */
  datatype Config = Config(
    model: string,
    tools: seq<string>,
    generation: Generation,
    responseModalities: string,
    languageCode: string,
    voiceName: string,
    systemInstruction: string,
    safetySettings: seq<SafetySetting>)

  const Model := "models/gemini-2.0-flash-exp"
  const DefaultLanguage := "en-US"
  const DefaultVoice := "Puck"
  const BlockNone := "BLOCK_NONE"

  /** JavaScript `value || fallback` on a stored string: a missing or empty
      entry yields the fallback. */
  function OrDefault(v: Option<string>, fallback: string): (r: string)
    ensures v.Some? && v.value != "" ==> r == v.value
    ensures v.None? || v == Some("") ==> r == fallback
  {
    if v.Some? && v.value != "" then v.value else fallback
  }

  /** `languageMap`'s own entries: the languages that get an explicit
      spoken-language sentence. */
  function LanguageName(code: string): Option<string>
  {
    if code == "es-ES" then Some("Spanish")
    else if code == "fr-FR" then Some("French")
    else if code == "de-DE" then Some("German")
    else if code == "ja-JP" then Some("Japanese")
    else if code == "hi-IN" then Some("Hindi")
    else None
  }

  /** The methods every plain object inherits from `Object.prototype`
      besides `constructor`. */
  const ObjectMethods: set<string> := {
    "toString", "toLocaleString", "valueOf", "hasOwnProperty", "isPrototypeOf",
    "propertyIsEnumerable", "__defineGetter__", "__defineSetter__",
    "__lookupGetter__", "__lookupSetter__" }

  /** What `languageMap[code]` finds on `Object.prototype` when the code is
      not one of the map's own keys, as a template string prints it: the
      prototype itself for `__proto__`, and the source text of a built-in
      function otherwise. */
  function Inherited(code: string): Option<string>
  {
    if code == "__proto__" then Some("[object Object]")
    else if code == "constructor" then Some("function Object() { [native code] }")
    else if code in ObjectMethods then Some("function " + code + "() { [native code] }")
    else None
  }

  /** `languageMap[code]` as a property lookup: an own entry first, then an
      inherited one. */
  function Lookup(code: string): (r: Option<string>)
    ensures LanguageName(code).Some? ==> r == LanguageName(code)
    ensures LanguageName(code).None? ==> r == Inherited(code)
    ensures code == DefaultLanguage ==> r.None?
  {
    if LanguageName(code).Some? then LanguageName(code) else Inherited(code)
  }

  const SentencePrefix := "\n\nPlease make sure you are talking to the user using "
  const SentenceSuffix := " language which is what the customer requested."

  /** The sentence appended to the system instruction for a found language. */
  function LanguageSentence(name: string): string
  {
    SentencePrefix + name + SentenceSuffix
  }

  /** The system instruction sent: the stored text (or the built-in one),
      followed by the language sentence when the code is not `en-US` and
      the lookup finds something. */
  function Instruction(base: string, code: string): (s: string)
    ensures Lookup(code).None? ==> s == base
    ensures Lookup(code).Some? ==> s == base + LanguageSentence(Lookup(code).value)
  {
    if code != DefaultLanguage && Lookup(code).Some? then base + LanguageSentence(Lookup(code).value)
    else base
  }

  /** `getConfig()`, given the store and the built-in default instruction. */
  function GetConfig(store: Store, builtInInstruction: string): (c: Config)
    ensures c.model == Model && c.responseModalities == "audio"
    ensures c.languageCode == OrDefault(store.language, DefaultLanguage) && c.languageCode != ""
    ensures c.voiceName == OrDefault(store.voiceName, DefaultVoice) && c.voiceName != ""
    ensures c.generation == store.generation
    ensures var base := OrDefault(store.systemInstructions, builtInInstruction);
      && |base| <= |c.systemInstruction|
      && c.systemInstruction[..|base|] == base
      && (c.systemInstruction == base <==> Lookup(c.languageCode).None?)
    ensures |c.safetySettings| == 4
    ensures forall i :: 0 <= i < |c.safetySettings| ==> c.safetySettings[i].threshold == BlockNone
    ensures forall i, j :: 0 <= i < j < |c.safetySettings| ==> c.safetySettings[i].category != c.safetySettings[j].category
  {
    var code := OrDefault(store.language, DefaultLanguage);
    Config(
      Model,
      ["googleSearchRetrieval"],
      store.generation,
      "audio",
      code,
      OrDefault(store.voiceName, DefaultVoice),
      Instruction(OrDefault(store.systemInstructions, builtInInstruction), code),
      [ SafetySetting("HARM_CATEGORY_HARASSMENT", BlockNone),
        SafetySetting("HARM_CATEGORY_DANGEROUS_CONTENT", BlockNone),
        SafetySetting("HARM_CATEGORY_SEXUALLY_EXPLICIT", BlockNone),
        SafetySetting("HARM_CATEGORY_HATE_SPEECH", BlockNone) ])
  }

  /** With no language stored, the session speaks `en-US` and the
      instruction is sent unchanged. */
  lemma DefaultLanguageKeepsInstruction(store: Store, builtIn: string)
    requires store.language.None? || store.language == Some("")
    ensures GetConfig(store, builtIn).languageCode == DefaultLanguage
    ensures GetConfig(store, builtIn).systemInstruction == OrDefault(store.systemInstructions, builtIn)
  {
  }

  /** A stored language naming an inherited property still gets a sentence:
      `constructor` appends the printed `Object` constructor. */
  lemma InheritedKeyAppends(store: Store, builtIn: string)
    requires store.language == Some("constructor")
    ensures GetConfig(store, builtIn).systemInstruction ==
      OrDefault(store.systemInstructions, builtIn) + LanguageSentence("function Object() { [native code] }")
  {
    assert LanguageName("constructor").None?;
  }

  /** The map's language names differ in their last or third-to-last
      letter. */
  lemma NamesDiffer(code1: string, code2: string)
    requires LanguageName(code1).Some? && LanguageName(code2).Some?
    ensures var (n1, n2) := (LanguageName(code1).value, LanguageName(code2).value);
      |n1| >= 3 && |n2| >= 3 &&
      (n1[|n1| - 1] == n2[|n2| - 1] && n1[|n1| - 3] == n2[|n2| - 3] ==> n1 == n2)
  {
  }

  /** Two texts ending in the same suffix agree before it. */
  lemma StripSuffix(t1: string, t2: string, suffix: string)
    requires t1 + suffix == t2 + suffix
    ensures t1 == t2
  {
    assert t1 == (t1 + suffix)[..|t1|];
    assert t2 == (t2 + suffix)[..|t2|];
  }

  /** For the map's own languages, the appended sentence names the
      language, and stripping it recovers the stored instruction: no two
      (instruction, language) pairs produce the same text. */
  lemma InstructionInjective(base1: string, base2: string, code1: string, code2: string)
    requires LanguageName(code1).Some? && LanguageName(code2).Some?
    requires Instruction(base1, code1) == Instruction(base2, code2)
    ensures base1 == base2
    ensures LanguageName(code1) == LanguageName(code2)
  {
    var n1 := LanguageName(code1).value;
    var n2 := LanguageName(code2).value;
    var t1 := base1 + SentencePrefix + n1;
    var t2 := base2 + SentencePrefix + n2;
    assert Instruction(base1, code1) == t1 + SentenceSuffix;
    assert Instruction(base2, code2) == t2 + SentenceSuffix;
    StripSuffix(t1, t2, SentenceSuffix);
    NamesDiffer(code1, code2);
    assert t1[|t1| - 1] == n1[|n1| - 1] && t1[|t1| - 3] == n1[|n1| - 3];
    assert t2[|t2| - 1] == n2[|n2| - 1] && t2[|t2| - 3] == n2[|n2| - 3];
    assert n1 == n2;
    assert t1 == base1 + (SentencePrefix + n1);
    assert t2 == base2 + (SentencePrefix + n1);
    StripSuffix(base1, base2, SentencePrefix + n1);
  }
}
