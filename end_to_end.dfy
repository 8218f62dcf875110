/** How the browser side and the backend fit together: what the generation
    page sends after its own checks, how the backend judges it, and what the
    page then shows. */
module EndToEnd {
  import opened Basics
  import opened JsString
  import opened JsValue
  import opened Http
  import opened Platforms
  import opened Validator
  import opened Mistral
  import opened Routes
  import opened FrontendApi
  import opened Home

  /** The stored profile is missing, or one the backend accepts. */
  predicate SendableProfile(stored: Json) {
    !Truthy(stored) || ProfileOk(stored)
  }

  /** The profile sent when none is stored passes the profile checks. */
  lemma DefaultProfileAccepted()
    ensures ProfileOk(DefaultProfile())
  {
    assert Get(DefaultProfile(), "tone") == JStr("professional");
    assert "professional" in AllowedTones;
  }

  /** A request that passed the page's checks, whose content is at most 10000
      units and whose profile is default or acceptable, passes the backend's
      validator. */
  lemma PreCheckedRequestAccepted(content: string, on: map<Platform, bool>, stored: Json)
    requires Complete(on)
    requires PreCheckError(content, on).None?
    requires Utf16Length(content) <= MaxContentLength
    requires SendableProfile(stored)
    ensures ValidateGenerate(GenerateRequest(content, SelectedPlatforms(on), stored).body) == Next
  {
    var ids := SelectedPlatforms(on);
    var body := GenerateRequest(content, ids, stored).body;
    SelectedPlatformsSpec(on);
    HasPlatformsIff(on);
    DefaultProfileAccepted();
    var platforms := Get(body, "platforms");
    assert platforms == StrArray(ids);
    forall i | 0 <= i < |platforms.items| ensures Whitelisted(platforms.items[i]) {
      assert platforms.items[i] == JStr(ids[i]);
    }
    assert PlatformsOk(platforms);
    assert ProfileOk(Get(body, "profile"));
    ValidateGenerateAcceptsWellFormed(body);
  }

  /** The page sends any content of 100 units or more, but the backend refuses
      one above 10000 units, and the page then shows the refusal. */
  lemma OverlongContentRefused(content: string, on: map<Platform, bool>, stored: Json)
    requires Complete(on) && HasPlatforms(on)
    requires Utf16Length(content) > MaxContentLength
    ensures PreCheckError(content, on).None?
    ensures ValidateGenerate(GenerateRequest(content, SelectedPlatforms(on), stored).body) == Reject(ContentTooLong)
  {
  }

  /** The page receives the backend's results object as it was built. */
  lemma FrontendUnwrapsResults(results: map<string, Outcome>, processed: nat)
    ensures GenerateOutcome(Received(GenerateSuccess(results, processed).body)) == Ok(ResultsJson(results))
  {
  }

  /** Every refusal's details are non-empty text. */
  lemma DetailsNonEmpty(r: Reason)
    ensures Details(r) != ""
  {
    match r
    case UnknownPlatforms(invalid) =>
      assert Details(r)[0] == 'I';
    case _ =>
  }

  /** A validation refusal reaches the page as `Validation failed: <details>`. */
  lemma RefusalMessage(r: Reason, error: JsError)
    requires error.response == Some(ErrorResponse(RejectionResponse(r).status, RejectionResponse(r).body))
    ensures GenerateOutcome(Rejected(error)) == Err("Validation failed: " + Details(r))
  {
    RefusalBodyText(r);
    var d := Details(r);
    assert ErrorMessage(error) == "Validation failed" + ": " + d;
    HeadlineJoin(d);
  }

  /** The page reads the refusal body's headline and its details. */
  lemma RefusalBodyText(r: Reason)
    ensures HeadlineOf(RejectionBody(r)) == "Validation failed"
    ensures ExplanationOf(RejectionBody(r)) == Details(r)
  {
    DetailsNonEmpty(r);
  }

  lemma HeadlineJoin(d: string)
    ensures "Validation failed" + ": " + d == "Validation failed: " + d
  {
  }

  /** A backend without a key reaches the page as the configuration error and its message. */
  lemma MissingKeyMessage(error: JsError)
    requires error.response == Some(ErrorResponse(500, ConfigErrorResponse(GenerateConfigMessage).body))
    ensures GenerateOutcome(Rejected(error)) == Err("Service configuration error: " + GenerateConfigMessage)
  {
    var body := ConfigErrorResponse(GenerateConfigMessage).body;
    assert Get(body, "error") == JStr("Service configuration error");
    assert Get(body, "details") == JUndefined;
    assert Get(body, "message") == JStr(GenerateConfigMessage);
    assert HeadlineOf(body) == "Service configuration error";
    assert ExplanationOf(body) == GenerateConfigMessage;
    assert ErrorMessage(error) == "Service configuration error" + ": " + GenerateConfigMessage;
    assert "Service configuration error" + ": " + GenerateConfigMessage == "Service configuration error: " + GenerateConfigMessage;
  }
}
