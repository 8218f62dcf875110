/** The request validation middleware: early-return guards run in a fixed
    order; the first failing guard answers 400, and otherwise `next()` runs. */
module Validator {
  import opened Basics
  import opened JsString
  import opened JsValue
  import opened Http
  import Platforms

  const MinContentLength: nat := 100
  const MaxContentLength: nat := 10000
  const MaxNameLength: nat := 100
  const MaxBioLength: nat := 500
  const AllowedTones: seq<string> := ["casual", "professional", "technical"]

  /** Why a request is refused; each reason has its own `details` text. */
  datatype Reason =
    | ContentMissing
    | ContentTooShort
    | ContentTooLong
    | PlatformsMissing
    | TooManyPlatforms
    | UnknownPlatforms(invalid: seq<Json>)
    | ProfileNotObject
    | NameNotString
    | NameTooLong
    | BioNotString
    | BioTooLong
    | InvalidTone
    | TargetFormatMissing
  {
    predicate IsContentReason() {
      ContentMissing? || ContentTooShort? || ContentTooLong?
    }

    predicate IsPlatformsReason() {
      PlatformsMissing? || TooManyPlatforms? || UnknownPlatforms?
    }

    predicate IsProfileReason() {
      ProfileNotObject? || NameNotString? || NameTooLong? || BioNotString? || BioTooLong? || InvalidTone?
    }
  }

  /** `next()` is called, or the request is answered with a 400. */
  datatype Verdict = Next | Reject(reason: Reason)

  /** `ALLOWED_PLATFORMS.includes(p)`. */
  predicate Whitelisted(p: Json) {
    p.JStr? && p.s in Platforms.AllowedPlatforms
  }

  /** `platforms.filter(p => !ALLOWED_PLATFORMS.includes(p))`. */
  function InvalidPlatformsOf(items: seq<Json>): (r: seq<Json>)
    ensures |r| <= |items|
  {
    if items == [] then []
    else (if Whitelisted(items[0]) then [] else [items[0]]) + InvalidPlatformsOf(items[1..])
  }

  /** An entry is reported exactly when it is in the input and not whitelisted. */
  lemma {:induction false} InvalidPlatformsOfMembers(items: seq<Json>)
    ensures forall x :: x in InvalidPlatformsOf(items) <==> x in items && !Whitelisted(x)
    ensures InvalidPlatformsOf(items) == [] <==> forall i :: 0 <= i < |items| ==> Whitelisted(items[i])
  {
    if items != [] {
      InvalidPlatformsOfMembers(items[1..]);
      assert items == [items[0]] + items[1..];
    }
  }

  /** The filter keeps input order: it distributes over concatenation. */
  lemma {:induction false} InvalidPlatformsOfAppend(a: seq<Json>, b: seq<Json>)
    ensures InvalidPlatformsOf(a + b) == InvalidPlatformsOf(a) + InvalidPlatformsOf(b)
  {
    if a == [] {
      assert a + b == b;
    } else {
      assert (a + b)[0] == a[0];
      assert (a + b)[1..] == a[1..] + b;
      InvalidPlatformsOfAppend(a[1..], b);
    }
  }

  /** The `details` text of each refusal. */
  function Details(r: Reason): string {
    match r
    case ContentMissing => "Content is required and must be a string"
    case ContentTooShort => "Content must be at least " + NatToString(MinContentLength) + " characters long"
    case ContentTooLong => "Content must not exceed " + NatToString(MaxContentLength) + " characters"
    case PlatformsMissing => "Platforms is required and must be a non-empty array"
    case TooManyPlatforms => "Maximum " + NatToString(|Platforms.AllowedPlatforms|) + " platforms allowed per request"
    case UnknownPlatforms(invalid) => "Invalid platforms: " + JoinValues(invalid, ", ")
    case ProfileNotObject => "Profile must be an object"
    case NameNotString => "Profile name must be a string"
    case NameTooLong => "Profile name must not exceed " + NatToString(MaxNameLength) + " characters"
    case BioNotString => "Profile bio must be a string"
    case BioTooLong => "Profile bio must not exceed " + NatToString(MaxBioLength) + " characters"
    case InvalidTone => "Invalid tone. Allowed values: " + Join(AllowedTones, ", ")
    case TargetFormatMissing => "targetFormat is required and must be a string"
  }

  /** The JSON body of the 400 answer; only the whitelist refusal carries `allowed`. */
  function RejectionBody(r: Reason): (body: Json)
    ensures Get(body, "error") == JStr("Validation failed")
    ensures Get(body, "details") == JStr(Details(r))
    ensures Get(body, "allowed") == if r.UnknownPlatforms? then StrArray(Platforms.AllowedPlatforms) else JUndefined
  {
    var base := map["error" := JStr("Validation failed"), "details" := JStr(Details(r))];
    JObj(if r.UnknownPlatforms? then base["allowed" := StrArray(Platforms.AllowedPlatforms)] else base)
  }

  function RejectionResponse(r: Reason): Response {
    Response(400, RejectionBody(r))
  }

  /** The profile checks, run only on a truthy profile. */
  function CheckProfile(profile: Json): (v: Verdict)
    ensures v == Next || v.reason.IsProfileReason()
  {
    if !profile.JObj? then Reject(ProfileNotObject)
    else
      var name := Get(profile, "name");
      var bio := Get(profile, "bio");
      var tone := Get(profile, "tone");
      if Truthy(name) && !name.JStr? then Reject(NameNotString)
      else if Truthy(name) && Utf16Length(name.s) > MaxNameLength then Reject(NameTooLong)
      else if Truthy(bio) && !bio.JStr? then Reject(BioNotString)
      else if Truthy(bio) && Utf16Length(bio.s) > MaxBioLength then Reject(BioTooLong)
      else if Truthy(tone) && !(tone.JStr? && tone.s in AllowedTones) then Reject(InvalidTone)
      else Next
  }

  /** `validateGenerateRequest` on the parsed JSON body. */
  function ValidateGenerate(body: Json): Verdict {
    var content := Get(body, "content");
    var platforms := Get(body, "platforms");
    var profile := Get(body, "profile");
    if !Truthy(content) || !content.JStr? then Reject(ContentMissing)
    else if Utf16Length(content.s) < MinContentLength then Reject(ContentTooShort)
    else if Utf16Length(content.s) > MaxContentLength then Reject(ContentTooLong)
    else if !Truthy(platforms) || !platforms.JArr? || |platforms.items| == 0 then Reject(PlatformsMissing)
    else if |platforms.items| > |Platforms.AllowedPlatforms| then Reject(TooManyPlatforms)
    else if |InvalidPlatformsOf(platforms.items)| > 0 then Reject(UnknownPlatforms(InvalidPlatformsOf(platforms.items)))
    else if Truthy(profile) then CheckProfile(profile)
    else Next
  }

  /** `validateRepurposeRequest` on the parsed JSON body. */
  function ValidateRepurpose(body: Json): Verdict {
    var content := Get(body, "content");
    var targetFormat := Get(body, "targetFormat");
    if !Truthy(content) || !content.JStr? then Reject(ContentMissing)
    else if Utf16Length(content.s) > MaxContentLength then Reject(ContentTooLong)
    else if !Truthy(targetFormat) || !targetFormat.JStr? then Reject(TargetFormatMissing)
    else Next
  }

  // ---------------------------------------------------------------------------
  // What a well-formed request is, stated field by field.

  predicate ContentOk(content: Json) {
    content.JStr? && MinContentLength <= Utf16Length(content.s) <= MaxContentLength
  }

  predicate PlatformsOk(platforms: Json) {
    && platforms.JArr?
    && 1 <= |platforms.items| <= |Platforms.AllowedPlatforms|
    && forall i :: 0 <= i < |platforms.items| ==> Whitelisted(platforms.items[i])
  }

  /** An optional string field: absent or falsy, or a string of at most `max` units. */
  predicate OptionalText(v: Json, max: nat) {
    !Truthy(v) || (v.JStr? && Utf16Length(v.s) <= max)
  }

  predicate ToneOk(tone: Json) {
    !Truthy(tone) || (tone.JStr? && tone.s in AllowedTones)
  }

  predicate ProfileOk(profile: Json) {
    || !Truthy(profile)
    || (&& profile.JObj?
        && OptionalText(Get(profile, "name"), MaxNameLength)
        && OptionalText(Get(profile, "bio"), MaxBioLength)
        && ToneOk(Get(profile, "tone")))
  }

  predicate WellFormedGenerate(body: Json) {
    && ContentOk(Get(body, "content"))
    && PlatformsOk(Get(body, "platforms"))
    && ProfileOk(Get(body, "profile"))
  }

  // ---------------------------------------------------------------------------
  // Properties of the generate validator.

  /** `next()` runs exactly for the well-formed requests. */
  lemma ValidateGenerateAcceptsWellFormed(body: Json)
    ensures ValidateGenerate(body) == Next <==> WellFormedGenerate(body)
  {
    var platforms := Get(body, "platforms");
    if platforms.JArr? {
      InvalidPlatformsOfMembers(platforms.items);
      var bad := InvalidPlatformsOf(platforms.items);
      if |bad| > 0 {
        assert bad[0] in platforms.items;
      } else {
        forall i | 0 <= i < |platforms.items| ensures Whitelisted(platforms.items[i]) {
          assert platforms.items[i] !in bad;
        }
      }
    }
  }

  /** Content is checked first: a bad content is reported whatever else the body holds. */
  lemma ContentCheckedFirst(body: Json)
    requires !ContentOk(Get(body, "content"))
    ensures ValidateGenerate(body).Reject? && ValidateGenerate(body).reason.IsContentReason()
  {
  }

  /** Platforms come second: with a good content, bad platforms are reported before the profile is looked at. */
  lemma PlatformsCheckedSecond(body: Json)
    requires ContentOk(Get(body, "content"))
    requires !PlatformsOk(Get(body, "platforms"))
    ensures ValidateGenerate(body).Reject? && ValidateGenerate(body).reason.IsPlatformsReason()
  {
    var platforms := Get(body, "platforms");
    if platforms.JArr? && 1 <= |platforms.items| <= 5 {
      InvalidPlatformsOfMembers(platforms.items);
      var i :| 0 <= i < |platforms.items| && !Whitelisted(platforms.items[i]);
      assert platforms.items[i] in InvalidPlatformsOf(platforms.items);
    }
  }

  /** The profile comes last, and only a profile problem can then be reported. */
  lemma ProfileCheckedLast(body: Json)
    requires ContentOk(Get(body, "content")) && PlatformsOk(Get(body, "platforms"))
    ensures ValidateGenerate(body) == Next || ValidateGenerate(body).reason.IsProfileReason()
    ensures ValidateGenerate(body) == Next <==> ProfileOk(Get(body, "profile"))
  {
    var items := Get(body, "platforms").items;
    InvalidPlatformsOfMembers(items);
    ValidateGenerateAcceptsWellFormed(body);
  }

  /** The whitelist refusal names every offending entry, in input order, and nothing else. */
  lemma UnknownPlatformsListed(body: Json, invalid: seq<Json>)
    requires ValidateGenerate(body) == Reject(UnknownPlatforms(invalid))
    ensures Get(body, "platforms").JArr?
    ensures invalid == InvalidPlatformsOf(Get(body, "platforms").items) && invalid != []
    ensures forall x :: x in invalid <==> x in Get(body, "platforms").items && !Whitelisted(x)
    ensures Get(RejectionBody(UnknownPlatforms(invalid)), "allowed") == StrArray(Platforms.AllowedPlatforms)
  {
    InvalidPlatformsOfMembers(Get(body, "platforms").items);
  }

  /** A content of `n` copies of one BMP character measures `n`. */
  function Repeat(c: char, n: nat): (s: string)
    requires c as int <= 0xFFFF
    ensures |s| == n && Utf16Length(s) == n
  {
    var s := seq(n, _ => c);
    BmpLength(s);
    s
  }

  function TwoPlatformBody(content: string, first: string, second: string): Json {
    JObj(map["content" := JStr(content), "platforms" := StrArray([first, second])])
  }

  /** With a content of an admissible length, two platforms and no profile,
      only the whitelist decides. */
  lemma TwoPlatformsDecide(content: string, first: string, second: string)
    requires MinContentLength <= Utf16Length(content) <= MaxContentLength
    ensures var items := StrArray([first, second]).items;
            ValidateGenerate(TwoPlatformBody(content, first, second))
            == if |InvalidPlatformsOf(items)| > 0 then Reject(UnknownPlatforms(InvalidPlatformsOf(items))) else Next
  {
    var body := TwoPlatformBody(content, first, second);
    assert Get(body, "content") == JStr(content);
    assert Get(body, "platforms") == StrArray([first, second]);
    assert Get(body, "profile") == JUndefined;
    assert |StrArray([first, second]).items| == 2;
  }

  /** A five-character content is refused for length; the platforms are never looked at. */
  lemma ShortContentRefused()
    ensures ValidateGenerate(JObj(map["content" := JStr("short"), "platforms" := StrArray(["twitter"])]))
            == Reject(ContentTooShort)
  {
    var body := JObj(map["content" := JStr("short"), "platforms" := StrArray(["twitter"])]);
    assert Get(body, "content") == JStr("short");
    ShortMeasuresFive();
  }

  lemma ShortMeasuresFive()
    ensures Utf16Length("short") == 5
  {
    BmpLength("short");
  }

  /** An unknown id is named, and the whitelist comes with the refusal. */
  lemma BogusPlatformRefused()
    ensures ValidateGenerate(TwoPlatformBody(Repeat('a', 150), "twitter", "bogus"))
            == Reject(UnknownPlatforms([JStr("bogus")]))
    ensures Details(UnknownPlatforms([JStr("bogus")])) == "Invalid platforms: bogus"
  {
    TwoPlatformsDecide(Repeat('a', 150), "twitter", "bogus");
    BogusIsInvalid();
    BogusDetails();
  }

  lemma BogusIsInvalid()
    ensures |StrArray(["twitter", "bogus"]).items| == 2
    ensures InvalidPlatformsOf(StrArray(["twitter", "bogus"]).items) == [JStr("bogus")]
  {
    var items := StrArray(["twitter", "bogus"]).items;
    assert items == [JStr("twitter"), JStr("bogus")];
    assert items[1..] == [JStr("bogus")];
  }

  lemma BogusDetails()
    ensures Details(UnknownPlatforms([JStr("bogus")])) == "Invalid platforms: bogus"
  {
    var shown := seq(1, i requires 0 <= i < 1 => ElementStr([JStr("bogus")][i]));
    assert shown == ["bogus"];
  }

  /** Duplicates of a whitelisted id are not refused. */
  lemma DuplicateValidIdsPass()
    ensures ValidateGenerate(TwoPlatformBody(Repeat('a', 150), "twitter", "twitter")) == Next
  {
    TwoPlatformsDecide(Repeat('a', 150), "twitter", "twitter");
    TwiceTwitterIsValid();
  }

  lemma TwiceTwitterIsValid()
    ensures |StrArray(["twitter", "twitter"]).items| == 2
    ensures InvalidPlatformsOf(StrArray(["twitter", "twitter"]).items) == []
  {
    var items := StrArray(["twitter", "twitter"]).items;
    assert items == [JStr("twitter"), JStr("twitter")];
    assert items[1..] == [JStr("twitter")];
  }

  // ---------------------------------------------------------------------------
  // The repurpose validator.

  predicate WellFormedRepurpose(body: Json) {
    var content := Get(body, "content");
    var targetFormat := Get(body, "targetFormat");
    && content.JStr? && content.s != [] && Utf16Length(content.s) <= MaxContentLength
    && targetFormat.JStr? && targetFormat.s != []
  }

  /** `next()` runs exactly for a non-empty content of at most 10000 units and a non-empty `targetFormat`. */
  lemma ValidateRepurposeAcceptsWellFormed(body: Json)
    ensures ValidateRepurpose(body) == Next <==> WellFormedRepurpose(body)
    ensures ValidateRepurpose(body) == Next || ValidateRepurpose(body).reason in {ContentMissing, ContentTooLong, TargetFormatMissing}
  {
  }

  /** Unlike generation, repurposing has no minimum length. */
  lemma RepurposeHasNoMinimum()
    ensures ValidateRepurpose(JObj(map["content" := JStr("x"), "targetFormat" := JStr("tweet")])) == Next
  {
    assert Utf16Length("x") == 1 by { BmpLength("x"); }
  }
}
