/**
 * The settings page's keyword list: an input box, an "Add" button that
 * appends the trimmed input when it is not blank, a "Remove" button per
 * keyword, and one audit event posted to the event store for every edit.
 * Posting an event is modelled as appending it to `outbox`.
 */
module SettingsPage {
  import opened JsBuiltins

  /** An audit event as posted to the `event` table: its name and date. */
  datatype Event = Event(name: JsString, date: JsString)

  /** The event name for adding the keyword `keyword`. */
  function AddedName(keyword: JsString): JsString
  {
    "Added keyword: " + keyword
  }

  /** The event name for removing the keyword read as `removed`; a read
      past the end of the list is `undefined`, which the template literal
      spells out. */
  function RemovedName(removed: Option<JsString>): JsString
  {
    "Removed keyword: " + match removed { case Some(k) => k case None => "undefined" }
  }

  /** Distinct keywords give distinct "Added keyword" event names, so the
      event log tells which keyword was added. */
  lemma AddedNameInjective(a: JsString, b: JsString)
    ensures AddedName(a) == AddedName(b) <==> a == b
  {
    if AddedName(a) == AddedName(b) {
      assert a == AddedName(a)[15..];
    }
  }

  /**
   * The "Removed keyword" event name tells removed keywords apart, except
   * that removing a keyword spelled "undefined" and removing past the end of
   * the list post the same name.
   */
  lemma RemovedNameDistinguishes(a: JsString, b: JsString)
    ensures RemovedName(Some(a)) == RemovedName(Some(b)) <==> a == b
    ensures RemovedName(Some("undefined")) == RemovedName(None)
  {
    if RemovedName(Some(a)) == RemovedName(Some(b)) {
      assert a == RemovedName(Some(a))[17..];
    }
  }

  /** A listed keyword is what the "Add" button stores: trimmed and not
      empty. */
  predicate IsTrimmedKeyword(k: JsString)
  {
    k != [] && Trim(k) == k
  }

  /** The state of the settings page. */
  class Settings {
    var keywords: seq<JsString>
    var newKeyword: JsString
    var outbox: seq<Event>

    /** Every listed keyword is trimmed and not empty. */
    ghost predicate Valid()
      reads this
    {
      forall k | k in keywords :: IsTrimmedKeyword(k)
    }

    /** Initial state: two sample keywords, an empty input, nothing posted. */
    constructor ()
      ensures keywords == ["keyword1", "keyword2"] && newKeyword == "" && outbox == []
      ensures Valid()
    {
      TrimKeepsTrimmed("keyword1");
      TrimKeepsTrimmed("keyword2");
      keywords := ["keyword1", "keyword2"];
      newKeyword := "";
      outbox := [];
    }

    /** The input box's `onChange`: the input becomes what was typed. */
    method SetNewKeyword(value: JsString)
      requires Valid()
      modifies this
      ensures Valid()
      ensures newKeyword == value
      ensures keywords == old(keywords) && outbox == old(outbox)
    {
      newKeyword := value;
    }

    /**
     * `handleAddKeyword`: when the trimmed input is not empty, append it (no
     * check for duplicates), clear the input and post one "Added keyword"
     * event dated `date`; when it is blank, do nothing at all.
     */
    method HandleAddKeyword(date: JsString)
      requires Valid()
      modifies this
      ensures Valid()
      ensures var trimmed := Trim(old(newKeyword));
        if !IsBlank(old(newKeyword)) then
          && keywords == old(keywords) + [trimmed]
          && newKeyword == ""
          && outbox == old(outbox) + [Event(AddedName(trimmed), date)]
        else
          && keywords == old(keywords)
          && newKeyword == old(newKeyword)
          && outbox == old(outbox)
    {
      if Trim(newKeyword) != "" {
        var added := Trim(newKeyword);
        TrimIdempotent(newKeyword);
        keywords := keywords + [added];
        var typed := newKeyword;
        newKeyword := "";
        outbox := outbox + [Event(AddedName(Trim(typed)), date)];
      }
    }

    /**
     * `handleRemoveKeyword(index)`: read `keywords[index]`, delete with
     * `splice(index, 1)` on a copy, store the copy, and post one "Removed
     * keyword" event dated `date`. For an index inside the list this removes
     * exactly that keyword and keeps the rest in order.
     */
    method HandleRemoveKeyword(index: int, date: JsString)
      requires Valid()
      modifies this
      ensures Valid()
      ensures keywords == SpliceOne(old(keywords), index)
      ensures 0 <= index < |old(keywords)| ==>
                keywords == old(keywords)[..index] + old(keywords)[index + 1..]
      ensures outbox == old(outbox) + [Event(RemovedName(Lookup(old(keywords), index)), date)]
      ensures newKeyword == old(newKeyword)
    {
      var removedKeyword := Lookup(keywords, index);
      var newKeywords := keywords;
      newKeywords := SpliceOne(newKeywords, index);
      keywords := newKeywords;
      outbox := outbox + [Event(RemovedName(removedKeyword), date)];
    }
  }

  /** Typing a keyword that is already listed and pressing "Add" lists it
      twice. */
  method DuplicateKeywordIsAdded(date: JsString) returns (keywords: seq<JsString>)
    ensures keywords == ["keyword1", "keyword2", "keyword1"]
  {
    var page := new Settings();
    page.SetNewKeyword("keyword1");
    TrimKeepsTrimmed("keyword1");
    page.HandleAddKeyword(date);
    keywords := page.keywords;
  }

  /** Removing the keyword just added restores the list; two events are
      posted. */
  method AddThenRemoveLast(page: Settings, addDate: JsString, removeDate: JsString)
    requires page.Valid() && !IsBlank(page.newKeyword)
    modifies page
    ensures page.keywords == old(page.keywords)
    ensures |page.outbox| == |old(page.outbox)| + 2
    ensures page.outbox[|page.outbox| - 1].name == RemovedName(Some(Trim(old(page.newKeyword))))
  {
    page.HandleAddKeyword(addDate);
    page.HandleRemoveKeyword(|page.keywords| - 1, removeDate);
  }
}
