/** The generation page: the content, the platform toggles, the checks made
    before anything is sent, and the history of successful generations,
    newest first and capped at twenty entries. */
module Home {
  import opened Basics
  import opened JsString
  import opened JsValue
  import opened Http
  import opened Platforms
  import opened FrontendApi

  const HistoryCap: nat := 20
  const MinContentLength: nat := 100

  const BothMissingMessage: string :=
    "Veuillez sélectionner au moins une plateforme et ajouter du contenu (min 100 caractères)"
  const ContentTooShortMessage: string := "Le contenu doit contenir au moins 100 caractères"
  const NoPlatformMessage: string := "Veuillez sélectionner au moins une plateforme"
  const FallbackErrorMessage: string := "Erreur API. Vérifie ta clé Mistral dans le fichier .env"

  /** One history entry: `{id, date, content, platforms, results}`. */
  datatype HistoryItem = HistoryItem(id: int, date: string, content: string, platforms: seq<string>, results: Json)

  /** `[item, ...history].slice(0, 20)`. */
  function PrependCapped(history: seq<HistoryItem>, item: HistoryItem): (h: seq<HistoryItem>)
    ensures |h| == Min(|history| + 1, HistoryCap)
    ensures h[0] == item
    ensures forall i :: 1 <= i < |h| ==> h[i] == history[i - 1]
  {
    ([item] + history)[..Min(|history| + 1, HistoryCap)]
  }

  /** A full history loses exactly its oldest entry. */
  lemma PrependDropsOldest(history: seq<HistoryItem>, item: HistoryItem)
    requires |history| == HistoryCap
    ensures PrependCapped(history, item) == [item] + history[..HistoryCap - 1]
  {
    var h := PrependCapped(history, item);
    forall i | 0 <= i < |h| ensures h[i] == ([item] + history[..HistoryCap - 1])[i] {
      if i > 0 {
        assert ([item] + history[..HistoryCap - 1])[i] == history[i - 1];
      }
    }
  }

  /** The toggle state holds a flag for every platform. */
  predicate Complete(on: map<Platform, bool>) {
    forall p: Platform :: p in on
  }

  /** Position of a platform in the page's toggle object. */
  function Rank(p: Platform): (n: nat)
    ensures n < |AllPlatforms|
  {
    match p
    case Twitter => 0
    case LinkedIn => 1
    case DevTo => 2
    case GitHub => 3
    case Newsletter => 4
  }

  /** The platforms of `order` that are switched on, in the order of `order`. */
  function SelectedIn(order: seq<Platform>, on: map<Platform, bool>): (ps: seq<Platform>)
    requires Complete(on)
    ensures forall p: Platform :: p in ps <==> p in order && on[p]
  {
    if order == [] then []
    else
      var rest := SelectedIn(order[1..], on);
      assert forall p :: p in order <==> p == order[0] || p in order[1..];
      (if on[order[0]] then [order[0]] else []) + rest
  }

  /** Filtering keeps the order. */
  lemma {:induction false} SelectedInRanked(order: seq<Platform>, on: map<Platform, bool>)
    requires Complete(on) && Ranked(order)
    ensures Ranked(SelectedIn(order, on))
  {
    if order != [] {
      var rest := SelectedIn(order[1..], on);
      assert Ranked(order[1..]) by {
        forall i, j | 0 <= i < j < |order[1..]| ensures Rank(order[1..][i]) < Rank(order[1..][j]) {
          assert order[1..][i] == order[i + 1] && order[1..][j] == order[j + 1];
        }
      }
      SelectedInRanked(order[1..], on);
      forall k | 0 <= k < |rest| ensures Rank(order[0]) < Rank(rest[k]) {
        assert rest[k] in order[1..];
        var m :| 0 <= m < |order[1..]| && order[1..][m] == rest[k];
        assert order[m + 1] == rest[k];
      }
    }
  }

  /** Identifiers name platforms one to one. */
  lemma IdInjective(p: Platform, q: Platform)
    ensures Id(p) == Id(q) ==> p == q
  {
    ParseId(p);
    ParseId(q);
  }

  /** The ids of a sequence of platforms. */
  function IdsOf(ps: seq<Platform>): (ids: seq<string>)
    ensures |ids| == |ps| && forall i :: 0 <= i < |ps| ==> ids[i] == Id(ps[i])
  {
    seq(|ps|, i requires 0 <= i < |ps| => Id(ps[i]))
  }

  /** `Object.keys(platforms).filter(p => platforms[p])`. */
  function SelectedPlatforms(on: map<Platform, bool>): seq<string>
    requires Complete(on)
  {
    IdsOf(SelectedIn(AllPlatforms, on))
  }

  /** The position of a platform id in the whitelist, which is the toggle order. */
  function RankOf(id: string): nat {
    match Parse(id)
    case Some(p) => Rank(p)
    case None => |AllPlatforms|
  }

  /** A sequence of platforms in strictly increasing toggle position. */
  predicate Ranked(ps: seq<Platform>) {
    forall i, j :: 0 <= i < j < |ps| ==> Rank(ps[i]) < Rank(ps[j])
  }

  lemma AllPlatformsRanked()
    ensures Ranked(AllPlatforms)
  {
    assert forall i :: 0 <= i < |AllPlatforms| ==> Rank(AllPlatforms[i]) == i;
  }

  /** The ids selected from a ranked order are exactly its switched-on
      platforms, each once, in that order. */
  lemma SelectedIdsSpec(order: seq<Platform>, on: map<Platform, bool>)
    requires Complete(on) && Ranked(order)
    ensures var ids := IdsOf(SelectedIn(order, on));
            && (forall p: Platform :: Id(p) in ids <==> p in order && on[p])
            && (forall i :: 0 <= i < |ids| ==> ids[i] in AllowedPlatforms)
            && (forall i, j :: 0 <= i < j < |ids| ==> RankOf(ids[i]) < RankOf(ids[j]))
            && |ids| <= |AllPlatforms|
  {
    var ps := SelectedIn(order, on);
    var ids := IdsOf(ps);
    SelectedInRanked(order, on);
    forall p: Platform ensures Id(p) in ids <==> p in order && on[p] {
      if Id(p) in ids {
        var i :| 0 <= i < |ids| && ids[i] == Id(p);
        IdInjective(p, ps[i]);
      }
      if p in order && on[p] {
        var i :| 0 <= i < |ps| && ps[i] == p;
        assert ids[i] == Id(p);
      }
    }
    forall i | 0 <= i < |ids| ensures ids[i] in AllowedPlatforms && RankOf(ids[i]) == Rank(ps[i]) {
      ParseId(ps[i]);
    }
    RanksBounded(ps);
  }

  /** The selected ids are exactly the switched-on platforms, each once, in
      the order twitter, linkedin, devto, github, newsletter. */
  lemma SelectedPlatformsSpec(on: map<Platform, bool>)
    requires Complete(on)
    ensures forall p: Platform :: Id(p) in SelectedPlatforms(on) <==> on[p]
    ensures forall i :: 0 <= i < |SelectedPlatforms(on)| ==> SelectedPlatforms(on)[i] in AllowedPlatforms
    ensures forall i, j :: 0 <= i < j < |SelectedPlatforms(on)| ==>
              RankOf(SelectedPlatforms(on)[i]) < RankOf(SelectedPlatforms(on)[j])
    ensures |SelectedPlatforms(on)| <= |AllPlatforms|
  {
    AllPlatformsRanked();
    AllowedAreIds();
    SelectedIdsSpec(AllPlatforms, on);
  }

  /** Platforms in strictly increasing position are at most five. */
  lemma RanksBounded(ps: seq<Platform>)
    requires Ranked(ps)
    ensures |ps| <= |AllPlatforms|
  {
    if ps != [] {
      RankGrows(ps, |ps| - 1);
    }
  }

  lemma {:induction false} RankGrows(ps: seq<Platform>, i: nat)
    requires Ranked(ps) && i < |ps|
    ensures Rank(ps[i]) >= i
  {
    if i > 0 {
      RankGrows(ps, i - 1);
    }
  }

  /** `hasContent`: `content && content.length >= 100`. */
  predicate HasContent(content: string) {
    content != "" && Utf16Length(content) >= MinContentLength
  }

  /** `hasPlatforms`: some toggle is on. */
  predicate HasPlatforms(on: map<Platform, bool>) {
    exists p :: p in on && on[p]
  }

  /** The message shown when the checks before sending fail, or `None`. */
  function PreCheckError(content: string, on: map<Platform, bool>): (r: Option<string>)
    ensures r.None? <==> HasContent(content) && HasPlatforms(on)
    ensures !HasContent(content) && !HasPlatforms(on) ==> r == Some(BothMissingMessage)
    ensures !HasContent(content) && HasPlatforms(on) ==> r == Some(ContentTooShortMessage)
    ensures HasContent(content) && !HasPlatforms(on) ==> r == Some(NoPlatformMessage)
  {
    var hasContent := HasContent(content);
    var hasPlatforms := HasPlatforms(on);
    if !hasContent || !hasPlatforms then
      if !hasContent && !hasPlatforms then Some(BothMissingMessage)
      else if !hasContent then Some(ContentTooShortMessage)
      else Some(NoPlatformMessage)
    else None
  }

  /** Some platform is on exactly when some id is selected. */
  lemma HasPlatformsIff(on: map<Platform, bool>)
    requires Complete(on)
    ensures HasPlatforms(on) <==> |SelectedPlatforms(on)| >= 1
  {
    SelectedPlatformsSpec(on);
    var ids := SelectedPlatforms(on);
    if HasPlatforms(on) {
      var p :| p in on && on[p];
      assert Id(p) in ids;
    }
    if |ids| >= 1 {
      var p := Parse(ids[0]).value;
      assert Id(p) in ids;
    }
  }

  /** The page state. */
  class HomePage {
    var content: string
    var platforms: map<Platform, bool>
    var results: Option<Json>
    var loading: bool
    var error: Option<string>
    var history: seq<HistoryItem>

    predicate Valid()
      reads this
    {
      Complete(platforms)
    }

    /** A fresh page: empty content, every toggle off, and the stored history. */
    constructor (storedHistory: seq<HistoryItem>)
      ensures Valid()
      ensures content == "" && results.None? && !loading && error.None?
      ensures forall p: Platform :: !platforms[p]
      ensures history == storedHistory
    {
      content := "";
      AllowedAreIds();
      platforms := map p | p in AllPlatforms :: false;
      results := None;
      loading := false;
      error := None;
      history := storedHistory;
    }

    /** The textarea's `onChange`. */
    method SetContent(text: string)
      modifies this
      ensures content == text
      ensures platforms == old(platforms) && history == old(history) && error == old(error)
      ensures results == old(results) && loading == old(loading)
    {
      content := text;
    }

    /** `handlePlatformToggle(p)`: flips `p` and no other toggle. */
    method TogglePlatform(p: Platform)
      requires Valid()
      modifies this
      ensures Valid()
      ensures platforms[p] == !old(platforms[p])
      ensures forall q: Platform :: q != p ==> platforms[q] == old(platforms[q])
      ensures content == old(content) && history == old(history) && error == old(error)
      ensures results == old(results) && loading == old(loading)
    {
      platforms := platforms[p := !platforms[p]];
    }

    /** `addToHistory(item)`, with `id` and `date` the current time as a number and as an ISO string. */
    method AddToHistory(id: int, date: string, itemContent: string, itemPlatforms: seq<string>, itemResults: Json)
      modifies this
      ensures history == PrependCapped(old(history), HistoryItem(id, date, itemContent, itemPlatforms, itemResults))
      ensures content == old(content) && platforms == old(platforms) && error == old(error)
      ensures results == old(results) && loading == old(loading)
    {
      history := PrependCapped(history, HistoryItem(id, date, itemContent, itemPlatforms, itemResults));
    }

    /** `handleGenerate`, with `backend` the client of the backend, `storedProfile`
        the stored profile and `now`/`date` the current time. Failed checks only
        set their message; otherwise one request is sent and either the results
        are shown and recorded, or the error is shown and the history is kept. */
    method HandleGenerate(backend: HttpClient, storedProfile: Json, now: int, date: string)
      requires Valid()
      modifies this, backend
      ensures Valid()
      ensures content == old(content) && platforms == old(platforms)
      ensures PreCheckError(content, platforms).Some? ==>
                && error == PreCheckError(content, platforms)
                && results == old(results) && history == old(history) && loading == old(loading)
                && backend.sent == old(backend.sent)
      ensures PreCheckError(content, platforms).None? ==>
                var request := GenerateRequest(content, SelectedPlatforms(platforms), storedProfile);
                var outcome := GenerateOutcome(backend.answer(old(backend.sent), request));
                && backend.sent == old(backend.sent) + [request]
                && !loading
                && (outcome.Ok? ==>
                      && results == Some(outcome.value) && error.None?
                      && history == PrependCapped(old(history),
                                     HistoryItem(now, date, content, SelectedPlatforms(platforms), outcome.value)))
                && (outcome.Err? ==> error == Some(outcome.error) && results.None? && history == old(history))
    {
      var check := PreCheckError(content, platforms);
      if check.Some? {
        error := check;
        return;
      }
      loading := true;
      error := None;
      results := None;
      var selected := SelectedPlatforms(platforms);
      var data := GenerateContent(backend, content, selected, storedProfile);
      if data.Ok? {
        results := Some(data.value);
        AddToHistory(now, date, content, selected, data.value);
      } else {
        error := Some(if data.error != "" then data.error else FallbackErrorMessage);
      }
      loading := false;
    }
  }
}
