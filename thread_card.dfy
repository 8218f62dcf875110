/** The tweet-thread card: the generated thread is split into tweets at every
    line that starts with a tweet number (`1/`, `2/`, ...), each tweet can be
    selected, and the selected tweets can be downloaded as one text. */
module ThreadCard {
  import opened Basics
  import opened JsString

  /** The length above which a tweet is flagged as over the limit. */
  const TweetLimit: nat := 280

  /** `/^\d+\//` matches `t`: one or more ASCII digits, then a slash. */
  predicate NumberedPrefix(t: string)
    decreases |t|
  {
    |t| >= 2 && IsDigit(t[0]) && (t[1] == '/' || NumberedPrefix(t[1..]))
  }

  /** The number of leading digits of `t`. */
  function DigitRun(t: string): (k: nat)
    ensures k <= |t|
    ensures forall i :: 0 <= i < k ==> IsDigit(t[i])
    ensures k < |t| ==> !IsDigit(t[k])
  {
    if t == [] || !IsDigit(t[0]) then 0
    else
      var k := DigitRun(t[1..]);
      assert forall i :: 1 <= i < k + 1 ==> t[i] == t[1..][i - 1];
      k + 1
  }

  /** A greedy digit run followed by a slash is exactly a numbered prefix. */
  lemma {:induction false} NumberedPrefixIff(t: string)
    ensures NumberedPrefix(t) <==> (1 <= DigitRun(t) < |t| && t[DigitRun(t)] == '/')
    decreases |t|
  {
    if t != [] && IsDigit(t[0]) && |t| >= 2 && t[1] != '/' {
      NumberedPrefixIff(t[1..]);
      assert DigitRun(t) == DigitRun(t[1..]) + 1;
      if 1 <= DigitRun(t[1..]) < |t| - 1 {
        assert t[DigitRun(t)] == t[1..][DigitRun(t[1..])];
      }
    }
  }

  /** A numbered prefix stays one when text is appended. */
  lemma {:induction false} NumberedPrefixExtends(t: string, u: string)
    requires NumberedPrefix(t)
    ensures NumberedPrefix(t + u)
    decreases |t|
  {
    assert (t + u)[0] == t[0] && (t + u)[1] == t[1];
    if t[1] != '/' {
      assert (t + u)[1..] == t[1..] + u;
      NumberedPrefixExtends(t[1..], u);
    }
  }

  /** Cutting a numbered text at a newline keeps its number. */
  lemma {:induction false} NumberedPrefixBeforeNewline(t: string, j: nat)
    requires NumberedPrefix(t) && j < |t| && t[j] == '\n'
    ensures NumberedPrefix(t[..j])
    decreases |t|
  {
    if t[1] != '/' {
      assert t[1..][j - 1] == t[j];
      NumberedPrefixBeforeNewline(t[1..], j - 1);
      assert t[..j][1..] == t[1..][..j - 1];
    }
  }

  /** The separator `/\n(?=\d+\/)/` matches at index `i`: a newline whose
      remainder starts with a tweet number. */
  predicate BreakAt(s: string, i: int) {
    0 <= i < |s| && s[i] == '\n' && NumberedPrefix(s[i + 1..])
  }

  /** The first match of the separator at or after `from`. */
  function FindBreak(s: string, from: nat): (r: Option<nat>)
    requires from <= |s|
    ensures r.Some? ==> from <= r.value < |s| && BreakAt(s, r.value)
    ensures forall j :: from <= j < (if r.Some? then r.value else |s|) ==> !BreakAt(s, j)
    decreases |s| - from
  {
    if from == |s| then None
    else if BreakAt(s, from) then Some(from)
    else FindBreak(s, from + 1)
  }

  /** `s.split(/\n(?=\d+\/)/)`. */
  function Split(s: string): (parts: seq<string>)
    ensures |parts| >= 1
    decreases |s|
  {
    match FindBreak(s, 0)
    case None => [s]
    case Some(i) => [s[..i]] + Split(s[i + 1..])
  }

  /** Splitting drops only the separating newlines: joining the pieces with
      a newline gives the text back. */
  lemma {:induction false} SplitJoin(s: string)
    ensures Join(Split(s), "\n") == s
    decreases |s|
  {
    match FindBreak(s, 0)
    case None =>
    case Some(i) =>
      var rest := Split(s[i + 1..]);
      SplitJoin(s[i + 1..]);
      assert ([s[..i]] + rest)[1..] == rest;
      assert s == s[..i] + "\n" + s[i + 1..];
  }

  /** The text is cut iff the separator occurs in it. */
  lemma SplitOnePieceIff(s: string)
    ensures |Split(s)| == 1 <==> forall j :: !BreakAt(s, j)
    ensures |Split(s)| == 1 ==> Split(s) == [s]
  {
  }

  /** A prefix that ends before the first separator contains none itself. */
  lemma PrefixUnbroken(s: string, i: nat)
    requires i <= |s|
    requires forall j :: 0 <= j < i ==> !BreakAt(s, j)
    ensures forall j :: !BreakAt(s[..i], j)
  {
    forall j | BreakAt(s[..i], j) ensures false {
      assert s[j + 1..] == s[..i][j + 1..] + s[i..];
      NumberedPrefixExtends(s[..i][j + 1..], s[i..]);
      assert BreakAt(s, j);
    }
  }

  /** No piece contains the separator. */
  lemma {:induction false} SplitPiecesUnbroken(s: string)
    ensures forall k, j :: 0 <= k < |Split(s)| ==> !BreakAt(Split(s)[k], j)
    decreases |s|
  {
    match FindBreak(s, 0)
    case None =>
      assert Split(s) == [s];
    case Some(i) =>
      var rest := Split(s[i + 1..]);
      assert Split(s) == [s[..i]] + rest;
      PrefixUnbroken(s, i);
      SplitPiecesUnbroken(s[i + 1..]);
      forall k, j | 0 <= k < |Split(s)| ensures !BreakAt(Split(s)[k], j) {
        if k > 0 {
          assert Split(s)[k] == rest[k - 1];
        }
      }
  }

  /** The first piece of a numbered text is numbered. */
  lemma SplitHeadNumbered(t: string)
    requires NumberedPrefix(t)
    ensures NumberedPrefix(Split(t)[0])
  {
    match FindBreak(t, 0)
    case None =>
    case Some(i) =>
      NumberedPrefixBeforeNewline(t, i);
  }

  /** Every piece but the first starts with a tweet number. */
  lemma {:induction false} SplitPiecesNumbered(s: string)
    ensures forall k :: 1 <= k < |Split(s)| ==> NumberedPrefix(Split(s)[k])
    decreases |s|
  {
    match FindBreak(s, 0)
    case None =>
    case Some(i) =>
      var rest := Split(s[i + 1..]);
      SplitPiecesNumbered(s[i + 1..]);
      SplitHeadNumbered(s[i + 1..]);
      assert forall k :: 1 <= k < |Split(s)| ==> Split(s)[k] == rest[k - 1];
  }

  /** `.map(tweet => tweet.trim()).filter(tweet => tweet.length > 0)`. */
  function TrimNonEmpty(parts: seq<string>): (tweets: seq<string>)
    ensures |tweets| <= |parts|
    ensures forall k :: 0 <= k < |tweets| ==> tweets[k] != "" && IsTrimmed(tweets[k])
  {
    if parts == [] then []
    else
      var t := Trim(parts[0]);
      TrimSpec(parts[0]);
      (if Utf16Length(t) > 0 then [t] else []) + TrimNonEmpty(parts[1..])
  }

  /** The tweets of a generated thread. */
  function ParseThread(content: string): (tweets: seq<string>)
    ensures forall k :: 0 <= k < |tweets| ==> tweets[k] != "" && IsTrimmed(tweets[k])
  {
    TrimNonEmpty(Split(content))
  }

  /** A text without a numbered line is at most one tweet, its trimmed self. */
  lemma UnnumberedIsOneTweet(content: string)
    requires forall j :: !BreakAt(content, j)
    ensures |ParseThread(content)| <= 1
    ensures ParseThread(content) == (if Trim(content) == "" then [] else [Trim(content)])
  {
    SplitOnePieceIff(content);
    var one: seq<string> := [content];
    assert one[1..] == [];
    if Trim(content) != "" {
      assert Utf16Length(Trim(content)) >= |Trim(content)| > 0;
    }
  }

  // `tweet.replace(/^\d+\/\s*/, '')`: the tweet without its number and the
  // whitespace after it.
  function StripNumbering(t: string): (r: string)
    ensures |r| <= |t| && r == t[|t| - |r|..]
  {
    var k := DigitRun(t);
    if 1 <= k < |t| && t[k] == '/' then TrimStart(t[k + 1..]) else t
  }

  // Where the match of `/^\d+\/\s*/` ends in `t`: after the leading digits,
  // the slash and the longest whitespace run that follows.
  predicate NumberEndsAt(t: string, k: int) {
    && 1 <= DigitRun(t) < k <= |t| && t[DigitRun(t)] == '/'
    && (forall j | DigitRun(t) < j < k :: IsWhitespace(t[j]))
    && (k < |t| ==> !IsWhitespace(t[k]))
  }

  /** A numbered tweet loses exactly its digits, its slash and the whitespace
      after them; any other tweet is left as it is. */
  lemma StripNumberingSpec(t: string)
    ensures NumberedPrefix(t) ==> exists k :: NumberEndsAt(t, k) && StripNumbering(t) == t[k..]
    ensures !NumberedPrefix(t) ==> StripNumbering(t) == t
  {
    NumberedPrefixIff(t);
    if NumberedPrefix(t) {
      var d := DigitRun(t);
      var rest := t[d + 1..];
      var w := LeadingWhitespace(rest);
      var k := d + 1 + w;
      forall j | d < j < k ensures IsWhitespace(t[j]) {
        assert t[j] == rest[j - d - 1];
      }
      if k < |t| {
        assert t[k] == rest[w];
      }
      assert rest[w..] == t[k..];
      assert NumberEndsAt(t, k);
    }
  }

  /** `charCount`: the length counted against the limit. */
  function CharCount(t: string): (n: nat)
    ensures n <= Utf16Length(t)
  {
    var r := StripNumbering(t);
    assert t == t[..|t| - |r|] + r;
    Utf16LengthAppend(t[..|t| - |r|], r);
    Utf16Length(r)
  }

  predicate IsOverLimit(t: string) {
    CharCount(t) > TweetLimit
  }

  /** A tweet of at most 280 units is never flagged; an unnumbered tweet is
      flagged iff it is longer than 280; a numbered one iff what follows its
      number and the whitespace after it is longer than 280. */
  lemma LimitFacts(t: string)
    ensures Utf16Length(t) <= TweetLimit ==> !IsOverLimit(t)
    ensures !NumberedPrefix(t) ==> (IsOverLimit(t) <==> Utf16Length(t) > TweetLimit)
    ensures NumberedPrefix(t) ==>
              exists k :: NumberEndsAt(t, k) && (IsOverLimit(t) <==> Utf16Length(t[k..]) > TweetLimit)
  {
    StripNumberingSpec(t);
  }

  /** `n` entries all equal to `b`. */
  function Uniform(n: nat, b: bool): (sel: seq<bool>)
    ensures |sel| == n && forall i :: 0 <= i < n ==> sel[i] == b
  {
    seq(n, _ => b)
  }

  /** The number of selected entries. */
  function Count(sel: seq<bool>): (n: nat)
    ensures n <= |sel|
  {
    if sel == [] then 0 else (if sel[0] then 1 else 0) + Count(sel[1..])
  }

  /** The tweets whose entries are selected, in thread order. */
  function Chosen(tweets: seq<string>, sel: seq<bool>): (r: seq<string>)
    requires |sel| == |tweets|
    ensures |r| == Count(sel)
  {
    if tweets == [] then []
    else (if sel[0] then [tweets[0]] else []) + Chosen(tweets[1..], sel[1..])
  }

  lemma {:induction false} CountAppend(a: seq<bool>, b: seq<bool>)
    ensures Count(a + b) == Count(a) + Count(b)
    decreases |a|
  {
    if a == [] {
      assert a + b == b;
    } else {
      assert (a + b)[0] == a[0];
      assert (a + b)[1..] == a[1..] + b;
      CountAppend(a[1..], b);
    }
  }

  /** Choosing is done piece by piece: the order of the tweets is kept. */
  lemma {:induction false} ChosenAppend(a: seq<string>, sa: seq<bool>, b: seq<string>, sb: seq<bool>)
    requires |sa| == |a| && |sb| == |b|
    ensures Chosen(a + b, sa + sb) == Chosen(a, sa) + Chosen(b, sb)
    decreases |a|
  {
    if a == [] {
      assert a + b == b && sa + sb == sb;
    } else {
      assert (a + b)[0] == a[0] && (sa + sb)[0] == sa[0];
      assert (a + b)[1..] == a[1..] + b && (sa + sb)[1..] == sa[1..] + sb;
      ChosenAppend(a[1..], sa[1..], b, sb);
    }
  }

  /** All selected: every tweet is chosen; none selected: none is. */
  lemma {:induction false} ChosenUniform(tweets: seq<string>, b: bool)
    ensures Count(Uniform(|tweets|, b)) == (if b then |tweets| else 0)
    ensures Chosen(tweets, Uniform(|tweets|, b)) == (if b then tweets else [])
    decreases |tweets|
  {
    if tweets != [] {
      assert Uniform(|tweets|, b)[1..] == Uniform(|tweets| - 1, b);
      ChosenUniform(tweets[1..], b);
      assert [tweets[0]] + tweets[1..] == tweets;
    }
  }

  /** All entries are counted only when all are selected. */
  lemma {:induction false} CountAll(sel: seq<bool>)
    requires Count(sel) == |sel|
    ensures sel == Uniform(|sel|, true)
    decreases |sel|
  {
    if sel != [] {
      CountAll(sel[1..]);
      assert sel == [sel[0]] + sel[1..];
    }
  }

  /** `toggleTweet(id)` on the entries, whose ids are their indexes. */
  function Toggled(sel: seq<bool>, id: int): seq<bool> {
    if 0 <= id < |sel| then sel[id := !sel[id]] else sel
  }

  /** Toggling flips the entry with that id and no other; an unknown id changes nothing. */
  lemma ToggleFlipsOne(sel: seq<bool>, id: int)
    ensures |Toggled(sel, id)| == |sel|
    ensures forall j :: 0 <= j < |sel| && j != id ==> Toggled(sel, id)[j] == sel[j]
    ensures 0 <= id < |sel| ==> Toggled(sel, id)[id] == !sel[id]
  {
  }

  /** Toggling the same tweet twice restores the selection. */
  lemma ToggleTwice(sel: seq<bool>, id: int)
    ensures Toggled(Toggled(sel, id), id) == sel
  {
  }

  /** Toggling moves the selected count by exactly one. */
  lemma {:induction false} ToggleCount(sel: seq<bool>, id: int)
    ensures Count(Toggled(sel, id)) ==
              if !(0 <= id < |sel|) then Count(sel) else if sel[id] then Count(sel) - 1 else Count(sel) + 1
    decreases |sel|
  {
    if 0 <= id < |sel| {
      var t := Toggled(sel, id);
      if id == 0 {
        assert t[1..] == sel[1..];
      } else {
        assert t[0] == sel[0];
        assert t[1..] == Toggled(sel[1..], id - 1);
        ToggleCount(sel[1..], id - 1);
      }
    }
  }

  /** The card's state: the tweets parsed once from the content, and one
      selection entry per tweet, whose id is the tweet's index. */
  class ThreadSelection {
    const tweets: seq<string>
    var selected: seq<bool>

    predicate Valid()
      reads this
    {
      |selected| == |tweets|
    }

    /** Mounting the card: every tweet starts unselected. */
    constructor (content: string)
      ensures tweets == ParseThread(content)
      ensures selected == Uniform(|tweets|, false)
      ensures Valid()
    {
      tweets := ParseThread(content);
      selected := Uniform(|ParseThread(content)|, false);
    }

    method ToggleTweet(id: int)
      requires Valid()
      modifies this
      ensures Valid()
      ensures selected == Toggled(old(selected), id)
    {
      if 0 <= id < |selected| {
        selected := selected[id := !selected[id]];
      }
    }

    method SelectAll()
      requires Valid()
      modifies this
      ensures Valid()
      ensures selected == Uniform(|tweets|, true)
    {
      selected := Uniform(|selected|, true);
    }

    method DeselectAll()
      requires Valid()
      modifies this
      ensures Valid()
      ensures selected == Uniform(|tweets|, false)
    {
      selected := Uniform(|selected|, false);
    }

    /** `selectedCount`. */
    function SelectedCount(): (n: nat)
      reads this
      requires Valid()
      ensures n <= |tweets|
    {
      Count(selected)
    }

    /** The downloaded text: the selected tweets in order, separated by a blank line. */
    function DownloadText(): (text: string)
      reads this
      requires Valid()
      ensures Count(selected) == 0 ==> text == ""
      ensures Count(selected) == |tweets| ==> text == Join(tweets, "\n\n")
    {
      if Count(selected) == |tweets| then
        CountAll(selected);
        ChosenUniform(tweets, true);
        Join(Chosen(tweets, selected), "\n\n")
      else
      Join(Chosen(tweets, selected), "\n\n")
    }
  }
}
