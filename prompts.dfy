/** The prompt builder of the Mistral service: the author preamble taken from
    the profile, and the table of five platform prompts with their token budgets. */
module Prompts {
  import opened Basics
  import opened JsString
  import opened JsValue
  import opened Platforms

  /** `TONE_DESCRIPTIONS`. */
  const ToneDescriptions: map<string, string> := map[
    "casual" := "décontracté et friendly, utilise un langage accessible",
    "professional" := "professionnel et formel, maintiens un ton sérieux",
    "technical" := "technique et précis, utilise un vocabulaire expert"]

  /** V8's message for `null.name`. */
  const NullNameMessage: string := "Cannot read properties of null (reading 'name')"

  /** The three parts of the preamble that every prompt starts with. */
  datatype ProfileInfo = ProfileInfo(authorInfo: string, bioInfo: string, toneInfo: string) {
    function Preamble(): string {
      authorInfo + bioInfo + toneInfo
    }
  }

  /** A prompt and its output budget (`max_tokens`). */
  datatype PromptSpec = PromptSpec(prompt: string, maxTokens: nat)

  function AuthorInfo(name: Json): string {
    if Truthy(name) then "Tu es " + ToStr(name) + ". " else "Tu es un développeur. "
  }

  function BioInfo(bio: Json): string {
    if Truthy(bio) then ToStr(bio) + "\n" else ""
  }

  /** The tone line: the tone (default `professional`) looked up as an own key of
      the table, with the professional description for any other key. */
  function ToneInfo(tone: Json): string {
    var key := ToneKey(tone);
    var description := if key in ToneDescriptions then ToneDescriptions[key] else ToneDescriptions["professional"];
    "Ton : " + description + ".\n"
  }

  /** `buildProfileInfo`, with a null profile read like a missing one (see the
      findings: the source throws on null). */
  function BuildProfileInfo(profile: Json): ProfileInfo {
    ProfileInfo(AuthorInfo(Get(profile, "name")), BioInfo(Get(profile, "bio")), ToneInfo(Get(profile, "tone")))
  }

  /** The members every plain object inherits from `Object.prototype`. */
  const ObjectPrototypeMembers: set<string> := {
    "constructor", "hasOwnProperty", "isPrototypeOf", "propertyIsEnumerable",
    "toLocaleString", "toString", "valueOf", "__proto__",
    "__defineGetter__", "__defineSetter__", "__lookupGetter__", "__lookupSetter__"}

  /** What `obj[key]` reads on a plain object literal: an own entry, an inherited member, or undefined. */
  datatype Lookup<T> = Own(value: T) | Inherited(name: string) | Missing

  /** `TONE_DESCRIPTIONS[key]` as JavaScript evaluates it. */
  function ToneLookupAsWritten(key: string): Lookup<string> {
    if key in ToneDescriptions then Own(ToneDescriptions[key])
    else if key in ObjectPrototypeMembers then Inherited(key)
    else Missing
  }

  /** No platform id is the name of an inherited member. */
  lemma InheritedNotWhitelisted()
    ensures forall m :: m in ObjectPrototypeMembers ==> m !in AllowedPlatforms
  {
  }

  /** How a template literal renders an inherited member: the native functions
      print their source text, `constructor` being the function `Object`, and
      `__proto__` is `Object.prototype` itself. */
  function NativeText(name: string): string {
    if name == "__proto__" then "[object Object]"
    else "function " + (if name == "constructor" then "Object" else name) + "() { [native code] }"
  }

  /** The tone key of a profile: `profile.tone || 'professional'`, as a string key. */
  function ToneKey(tone: Json): string {
    ToStr(Or(tone, JStr("professional")))
  }

  /** The tone line as written: `TONE_DESCRIPTIONS[tone] || TONE_DESCRIPTIONS.professional`,
      which prints an inherited member instead of falling back. */
  function ToneInfoAsWritten(tone: Json): (line: string)
    ensures ToneKey(tone) !in ObjectPrototypeMembers ==> line == ToneInfo(tone)
  {
    var description := match ToneLookupAsWritten(ToneKey(tone))
      case Own(d) => d
      case Inherited(name) => NativeText(name)
      case Missing => ToneDescriptions["professional"];
    "Ton : " + description + ".\n"
  }

  /** The profile's tone names an inherited member. */
  predicate InheritedTone(profile: Json) {
    ToneKey(Get(profile, "tone")) in ObjectPrototypeMembers
  }

  /** `buildProfileInfo` as written: the `profile = {}` default replaces only
      undefined, so `profile.name` throws a TypeError on null. */
  function BuildProfileInfoAsWritten(profile: Json): Result<ProfileInfo, string> {
    var p := if profile.JUndefined? then JObj(map[]) else profile;
    match Prop(p, "name")
    case Err(message) => Err(message)
    case Ok(name) => Ok(ProfileInfo(AuthorInfo(name), BioInfo(Get(p, "bio")), ToneInfoAsWritten(Get(p, "tone"))))
  }

  function Mission(p: Platform): string {
    match p
    case Twitter => "Transforme ce contenu en thread X (Twitter) optimisé et engageant."
    case LinkedIn => "Transforme ce contenu en post LinkedIn professionnel et engageant."
    case DevTo => "Transforme ce contenu en article Dev.to technique et bien structuré."
    case GitHub => "Transforme ce contenu en README.md GitHub professionnel."
    case Newsletter => "Transforme ce contenu en email de newsletter engageant."
  }

  function Instructions(p: Platform): string {
    match p
    case Twitter =>
      "1. Crée un thread de 8 à 12 tweets maximum\n2. Chaque tweet doit être numéroté (format : \"1/\", \"2/\", etc.)\n3. Chaque tweet doit faire MAXIMUM 280 caractères (espaces inclus)\n4. Le premier tweet doit être une accroche percutante\n5. Le dernier tweet doit contenir un call-to-action\n6. Utilise des émojis stratégiques (1-2 par tweet max)\n7. Ajoute des sauts de ligne pour l'aération si pertinent"
    case LinkedIn =>
      "1. Maximum 1300 caractères (limite LinkedIn pour visibilité optimale)\n2. Structure avec accroche + 3-5 points clés + conclusion + CTA + hashtags\n3. Utilise des émojis stratégiques (3-5 max)\n4. Utilise le markdown : **gras** pour les mots clés\n5. Aère le texte avec des sauts de ligne"
    case DevTo =>
      "1. Longueur cible : 500-800 mots\n2. Structure Markdown : # Titre, ## Sections, code blocks, listes\n3. Utilise émojis dans titres, **gras**, *italique*\n4. Inclus tips avec > 💡 **Tip:**\n5. Tags à la fin"
    case GitHub =>
      "1. Structure : Titre, badges, description, features, installation, usage, documentation, license\n2. Émojis dans titres, code blocks bash, exemples concrets\n3. Quick start oriented"
    case Newsletter =>
      "1. Longueur : 300-500 mots\n2. Structure : Objet, preview, salutation, intro, corps (2-3 sections), CTA, signature, P.S.\n3. Ton conversationnel, markdown simple, CTA clair\n4. Paragraphes courts (lisibilité mobile)"
  }

  function OutputFormat(p: Platform): string {
    match p
    case Twitter => "Retourne UNIQUEMENT le thread, un tweet par ligne, sans texte additionnel."
    case LinkedIn => "Retourne directement le post formaté, prêt à publier."
    case DevTo => "Retourne l'article complet en Markdown."
    case GitHub => "README.md complet."
    case Newsletter => "Email complet formaté en Markdown."
  }

  /** `maxTokens` of each table entry. */
  function MaxTokens(p: Platform): nat {
    match p
    case Twitter => 1200
    case LinkedIn => 1200
    case DevTo => 2500
    case GitHub => 2000
    case Newsletter => 1500
  }

  /** The template text between the preamble and the source content. */
  function Lead(p: Platform): string {
    "\n\nMISSION : " + Mission(p) + "\n\nCONTENU SOURCE :\n"
  }

  /** The template text after the source content. */
  function Tail(p: Platform): string {
    "\n\nINSTRUCTIONS PRÉCISES :\n" + Instructions(p) + "\n\nFORMAT DE SORTIE :\n" + OutputFormat(p)
  }

  function PromptFor(p: Platform, info: ProfileInfo, content: string): PromptSpec {
    PromptSpec(info.Preamble() + Lead(p) + content + Tail(p), MaxTokens(p))
  }

  /** `buildPrompt`: the `prompts` object has exactly the five platform ids as
      own keys; `prompts[platform] || null` gives that entry, or null (None). */
  function BuildPrompt(platform: string, content: string, profile: Json): Option<PromptSpec> {
    match Parse(platform)
    case Some(p) => Some(PromptFor(p, BuildProfileInfo(profile), content))
    case None => None
  }

  /** `buildPrompt` as written: the TypeError of `buildProfileInfo`, or what
      `prompts[platform]` reads on the object literal, own entry or inherited member. */
  function BuildPromptAsWritten(platform: string, content: string, profile: Json): Result<Lookup<PromptSpec>, string> {
    match BuildProfileInfoAsWritten(profile)
    case Err(message) => Err(message)
    case Ok(info) =>
      Ok(match Parse(platform)
         case Some(p) => Own(PromptFor(p, info, content))
         case None => if platform in ObjectPrototypeMembers then Inherited(platform) else Missing)
  }

  // ---------------------------------------------------------------------------
  // Properties of the builder.

  /** The cases of `buildPrompt` as written: a null profile throws for every id;
      otherwise a whitelisted id gets its platform's template, an inherited
      member name gets that member, and every other id nothing. */
  lemma BuildPromptAsWrittenCases(platform: string, content: string, profile: Json)
    ensures profile.JNull? ==> BuildPromptAsWritten(platform, content, profile) == Err(NullNameMessage)
    ensures !profile.JNull? ==> BuildProfileInfoAsWritten(profile).Ok?
    ensures !profile.JNull? && platform in AllowedPlatforms ==>
              BuildPromptAsWritten(platform, content, profile)
              == Ok(Own(PromptFor(Parse(platform).value, BuildProfileInfoAsWritten(profile).value, content)))
    ensures !profile.JNull? && platform in ObjectPrototypeMembers ==>
              BuildPromptAsWritten(platform, content, profile) == Ok(Inherited(platform))
    ensures !profile.JNull? && platform !in AllowedPlatforms && platform !in ObjectPrototypeMembers ==>
              BuildPromptAsWritten(platform, content, profile) == Ok(Missing)
  {
    if profile.JNull? {
      assert BuildProfileInfoAsWritten(profile) == Err(CannotRead(JNull, "name"));
      assert CannotRead(JNull, "name") == NullNameMessage;
    } else {
      var p := if profile.JUndefined? then JObj(map[]) else profile;
      assert Prop(p, "name").Ok?;
      var info := BuildProfileInfoAsWritten(profile).value;
      assert BuildPromptAsWritten(platform, content, profile)
             == Ok(match Parse(platform)
                   case Some(q) => Own(PromptFor(q, info, content))
                   case None => if platform in ObjectPrototypeMembers then Inherited(platform) else Missing);
      InheritedNotWhitelisted();
    }
  }

  /** Exactly the five whitelisted ids have a prompt, and each gets its own platform's entry. */
  lemma BuildPromptSupportedIff(platform: string, content: string, profile: Json)
    ensures BuildPrompt(platform, content, profile).Some? <==> platform in AllowedPlatforms
    ensures BuildPrompt(platform, content, profile).Some? ==>
              BuildPrompt(platform, content, profile).value
              == PromptFor(Parse(platform).value, BuildProfileInfo(profile), content)
  {
  }

  /** An unsupported id yields the same answer whatever the content and profile. */
  lemma UnsupportedIsUniform(platform: string, c1: string, c2: string, p1: Json, p2: Json)
    requires platform !in AllowedPlatforms
    ensures BuildPrompt(platform, c1, p1) == BuildPrompt(platform, c2, p2) == None
  {
  }

  /** The long-form platforms get the larger budgets: article, then README, then
      email, and the two short formats the default of `call`. */
  lemma BudgetOrder()
    ensures MaxTokens(DevTo) > MaxTokens(GitHub) > MaxTokens(Newsletter) > MaxTokens(Twitter)
    ensures MaxTokens(Twitter) == MaxTokens(LinkedIn) == 1200
    ensures MaxTokens(DevTo) == 2500 && MaxTokens(GitHub) == 2000 && MaxTokens(Newsletter) == 1500
  {
  }

  /** Where the source content sits inside a prompt for platform `p`. */
  function ContentOf(p: Platform, info: ProfileInfo, prompt: string): string
    requires |info.Preamble() + Lead(p)| + |Tail(p)| <= |prompt|
  {
    prompt[|info.Preamble() + Lead(p)|..|prompt| - |Tail(p)|]
  }

  /** Every prompt is the preamble, then the platform's lead, then the source
      content verbatim, then the platform's instructions: the content can be read back. */
  lemma PromptRoundTrip(p: Platform, info: ProfileInfo, content: string)
    ensures var prompt := PromptFor(p, info, content).prompt;
            && prompt[..|info.Preamble()|] == info.Preamble()
            && |info.Preamble() + Lead(p)| + |Tail(p)| <= |prompt|
            && ContentOf(p, info, prompt) == content
  {
    Framing(info.Preamble(), Lead(p), content, Tail(p));
  }

  lemma Framing(pre: string, lead: string, content: string, tail: string)
    ensures var s := pre + lead + content + tail;
            && s[..|pre|] == pre
            && |pre + lead| + |tail| <= |s|
            && s[|pre + lead|..|s| - |tail|] == content
  {
    var s := pre + lead + content + tail;
    assert s == pre + (lead + content + tail);
    assert s == (pre + lead) + content + tail;
  }

  /** Two contents never share a prompt. */
  lemma PromptDeterminesContent(p: Platform, info: ProfileInfo, c1: string, c2: string)
    requires PromptFor(p, info, c1).prompt == PromptFor(p, info, c2).prompt
    ensures c1 == c2
  {
    PromptRoundTrip(p, info, c1);
    PromptRoundTrip(p, info, c2);
  }

  /** The author line names the author when a name is given, and defaults otherwise;
      the bio line is the bio and a newline, or nothing. */
  lemma AuthorAndBio(name: string, bio: string)
    ensures var info := BuildProfileInfo(JObj(map["name" := JStr(name), "bio" := JStr(bio)]));
            && info.authorInfo == (if name != "" then "Tu es " + name + ". " else "Tu es un développeur. ")
            && info.bioInfo == (if bio != "" then bio + "\n" else "")
  {
  }

  /** A missing tone, or any tone whose string form is not a key of the table, gets
      the professional description. */
  lemma ToneFallback(profile: Json)
    requires var tone := Get(profile, "tone"); !Truthy(tone) || ToStr(tone) !in ToneDescriptions
    ensures BuildProfileInfo(profile).toneInfo == "Ton : " + ToneDescriptions["professional"] + ".\n"
  {
  }

  // ---------------------------------------------------------------------------
  // Two discrepancies of the source, each with the code as written and the
  // corrected reading that the rest of the model uses.

  /** A null profile passes the validator (it is falsy) but makes the builder
      as written throw; before the throw, no request is built. */
  lemma NullProfileThrows()
    ensures BuildProfileInfoAsWritten(JNull) == Err(NullNameMessage)
    ensures forall profile: Json :: !profile.JNull? && !InheritedTone(profile) ==>
              BuildProfileInfoAsWritten(profile) == Ok(BuildProfileInfo(profile))
  {
    assert CannotRead(JNull, "name") == NullNameMessage;
    forall profile: Json | !profile.JNull? && !InheritedTone(profile)
      ensures BuildProfileInfoAsWritten(profile) == Ok(BuildProfileInfo(profile))
    {
      OtherProfilesAgree(profile);
    }
  }

  lemma OtherProfilesAgree(profile: Json)
    requires !profile.JNull? && !InheritedTone(profile)
    ensures BuildProfileInfoAsWritten(profile) == Ok(BuildProfileInfo(profile))
  {
    var p := if profile.JUndefined? then JObj(map[]) else profile;
    assert Get(p, "name") == Get(profile, "name");
    assert Get(p, "bio") == Get(profile, "bio");
    assert Get(p, "tone") == Get(profile, "tone");
    assert Prop(p, "name") == Ok(Get(profile, "name"));
    assert ToneInfoAsWritten(Get(p, "tone")) == ToneInfo(Get(profile, "tone"));
  }

  /** Corrected: a null profile is read like a missing one, giving the default preamble. */
  lemma NullProfileReadsAsMissing()
    ensures BuildProfileInfo(JNull) == BuildProfileInfo(JUndefined) == BuildProfileInfo(JObj(map[]))
    ensures BuildProfileInfo(JNull).Preamble()
            == "Tu es un développeur. " + "Ton : " + ToneDescriptions["professional"] + ".\n"
  {
  }

  /** As written, `prompts['toString'] || null` is a function, not null, so the
      caller goes on to `call(undefined, undefined)`; likewise a tone named
      `constructor` is not replaced by the professional description. */
  lemma InheritedKeysAreFound(content: string, profile: Json)
    requires !profile.JNull?
    ensures BuildPromptAsWritten("toString", content, profile) == Ok(Inherited("toString"))
    ensures ToneLookupAsWritten("constructor") == Inherited("constructor")
    ensures ToneInfoAsWritten(JStr("constructor")) == "Ton : function Object() { [native code] }.\n"
  {
    assert "toString" in ObjectPrototypeMembers;
    BuildPromptAsWrittenCases("toString", content, profile);
    ConstructorToneText();
  }

  lemma ConstructorToneText()
    ensures ToneInfoAsWritten(JStr("constructor")) == "Ton : function Object() { [native code] }.\n"
  {
    ConstructorToneLine();
    ObjectSourceText();
    ToneLineText("function Object() { [native code] }");
  }

  /** A tone named `constructor` reads the inherited member, not the fallback. */
  lemma ConstructorToneLine()
    ensures ToneInfoAsWritten(JStr("constructor")) == "Ton : " + NativeText("constructor") + ".\n"
  {
    var key := ToneKey(JStr("constructor"));
    assert key == "constructor";
    assert key !in ToneDescriptions;
    assert key in ObjectPrototypeMembers;
  }

  lemma ObjectSourceText()
    ensures NativeText("constructor") == "function Object() { [native code] }"
  {
  }

  lemma ToneLineText(d: string)
    requires d == "function Object() { [native code] }"
    ensures "Ton : " + d + ".\n" == "Ton : function Object() { [native code] }.\n"
  {
  }

  /** Corrected: exactly the own keys are found, so every other id yields null and
      every other tone key the professional fallback. */
  lemma OnlyOwnKeysAreFound(content: string, profile: Json)
    ensures BuildPrompt("toString", content, profile) == None
    ensures ToneInfo(JStr("constructor")) == "Ton : " + ToneDescriptions["professional"] + ".\n"
    ensures forall platform :: platform !in AllowedPlatforms ==> BuildPrompt(platform, content, profile) == None
  {
  }
}
