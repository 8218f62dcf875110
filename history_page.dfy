/** The history page: the stored generations, one of which may be open in
    the detail view; entries can be deleted one id at a time or all at once. */
module HistoryPage {
  import opened Basics
  import opened JsString
  import opened Home

  /** The default `maxLength` of `truncateText`. */
  const DefaultMaxLength: nat := 100
  /** The length the detail view truncates the original content to. */
  const DetailMaxLength: nat := 50

  /** `history.filter(item => item.id !== id)`. */
  function RemoveById(history: seq<HistoryItem>, id: int): (h: seq<HistoryItem>)
    ensures |h| <= |history|
    ensures forall x :: x in h <==> x in history && x.id != id
  {
    if history == [] then []
    else
      var rest := RemoveById(history[1..], id);
      assert forall x :: x in history <==> x == history[0] || x in history[1..];
      (if history[0].id != id then [history[0]] else []) + rest
  }

  /** Deleting works entry by entry, so the kept entries stay in their order. */
  lemma {:induction false} RemoveByIdAppend(a: seq<HistoryItem>, b: seq<HistoryItem>, id: int)
    ensures RemoveById(a + b, id) == RemoveById(a, id) + RemoveById(b, id)
    decreases |a|
  {
    if a == [] {
      assert a + b == b;
    } else {
      assert (a + b)[0] == a[0];
      assert (a + b)[1..] == a[1..] + b;
      RemoveByIdAppend(a[1..], b, id);
    }
  }

  /** A history without the id is left as it is. */
  lemma {:induction false} RemoveAbsentId(history: seq<HistoryItem>, id: int)
    requires forall x :: x in history ==> x.id != id
    ensures RemoveById(history, id) == history
    decreases |history|
  {
    if history != [] {
      assert history[0] in history;
      assert forall x :: x in history[1..] ==> x in history;
      RemoveAbsentId(history[1..], id);
      assert [history[0]] + history[1..] == history;
    }
  }

  /** Deleting the same id twice is deleting it once. */
  lemma RemoveByIdIdempotent(history: seq<HistoryItem>, id: int)
    ensures RemoveById(RemoveById(history, id), id) == RemoveById(history, id)
  {
    RemoveAbsentId(RemoveById(history, id), id);
  }

  /** The longest prefix of `s` that measures at most `n` UTF-16 units. */
  function PrefixWithin(s: string, n: nat): (p: string)
    ensures p <= s && Utf16Length(p) <= n
    ensures p != s ==> Utf16Length(p) + Units(s[|p|]) > n
  {
    if s == [] || Units(s[0]) > n then []
    else
      var p := [s[0]] + PrefixWithin(s[1..], n - Units(s[0]));
      assert Utf16Length(p) == Units(s[0]) + Utf16Length(p[1..]) && p[1..] == PrefixWithin(s[1..], n - Units(s[0]));
      p
  }

  /** `truncateText(text, maxLength)`. */
  function TruncateText(text: string, maxLength: nat := DefaultMaxLength): string {
    if Utf16Length(text) <= maxLength then text else PrefixWithin(text, maxLength) + "..."
  }

  /** A text within the limit is shown whole; a longer one is cut to its first
      `maxLength` units (one fewer when the cut would split a surrogate pair)
      and ends with `...`. */
  lemma TruncateTextSpec(text: string, maxLength: nat)
    ensures Utf16Length(text) <= maxLength ==> TruncateText(text, maxLength) == text
    ensures Utf16Length(text) > maxLength ==>
              var kept := PrefixWithin(text, maxLength);
              && TruncateText(text, maxLength) == kept + "..."
              && kept < text
              && maxLength - 1 <= Utf16Length(kept) <= maxLength
  {
  }

  /** On text without astral characters, a truncated text is exactly `maxLength + 3` long. */
  lemma TruncateBmpLength(text: string, maxLength: nat)
    requires IsBmp(text) && Utf16Length(text) > maxLength
    ensures Utf16Length(TruncateText(text, maxLength)) == maxLength + 3
    ensures |TruncateText(text, maxLength)| == maxLength + 3
  {
    var kept := PrefixWithin(text, maxLength);
    assert IsBmp(kept) by {
      forall i | 0 <= i < |kept| ensures kept[i] as int <= 0xFFFF {
        assert kept[i] == text[i];
      }
    }
    BmpLength(kept);
    BmpLength(text);
    assert Units(text[|kept|]) == 1;
    Utf16LengthAppend(kept, "...");
    BmpLength("...");
  }

  /** The original content in the detail view: whole when expanded, otherwise
      truncated to 50 units. */
  function DetailContent(item: HistoryItem, showFullContent: bool): (shown: string)
    ensures showFullContent || Utf16Length(item.content) <= DetailMaxLength ==> shown == item.content
    ensures !showFullContent && Utf16Length(item.content) > DetailMaxLength ==>
              var kept := PrefixWithin(item.content, DetailMaxLength);
              && shown == kept + "..."
              && kept < item.content
              && DetailMaxLength - 1 <= Utf16Length(kept) <= DetailMaxLength
  {
    TruncateTextSpec(item.content, DetailMaxLength);
    if showFullContent then item.content else TruncateText(item.content, DetailMaxLength)
  }

  /** The page state: the stored history and the entry open in the detail view. */
  class HistoryView {
    var history: seq<HistoryItem>
    var selectedItem: Option<HistoryItem>

    constructor (storedHistory: seq<HistoryItem>)
      ensures history == storedHistory && selectedItem.None?
    {
      history := storedHistory;
      selectedItem := None;
    }

    /** Clicking an entry opens it. */
    method SelectItem(item: HistoryItem)
      modifies this
      ensures selectedItem == Some(item) && history == old(history)
    {
      selectedItem := Some(item);
    }

    /** The back button closes the detail view. */
    method CloseItem()
      modifies this
      ensures selectedItem.None? && history == old(history)
    {
      selectedItem := None;
    }

    /** `deleteItem(id)`: every entry with that id goes, and the open entry is
        closed exactly when it has that id. */
    method DeleteItem(id: int)
      modifies this
      ensures history == RemoveById(old(history), id)
      ensures selectedItem == if old(selectedItem).Some? && old(selectedItem).value.id == id then None else old(selectedItem)
    {
      history := RemoveById(history, id);
      if selectedItem.Some? && selectedItem.value.id == id {
        selectedItem := None;
      }
    }

    /** `clearAllHistory`, with `confirmed` the answer to the confirmation dialog. */
    method ClearAllHistory(confirmed: bool)
      modifies this
      ensures confirmed ==> history == [] && selectedItem.None?
      ensures !confirmed ==> history == old(history) && selectedItem == old(selectedItem)
    {
      if confirmed {
        history := [];
        selectedItem := None;
      }
    }
  }
}
