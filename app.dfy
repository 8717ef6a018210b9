/**
 * The name-recommendation page (frontend/src/App.jsx): the English name
 * typed by the user is validated on every keystroke and before it is sent;
 * the candidates returned by the back end can be selected, the selected
 * one saved to a list (most recent first, a repeat refused) and saved
 * entries deleted again.  Requests to the back end are recorded in
 * `outbox` instead of being sent; the answer to a conversion request is
 * passed in as a parameter.
 */
module NameApp {
  import opened Wrappers
  import opened Text

  // ---------------------------------------------------------------------
  // validateName
  // ---------------------------------------------------------------------

  const MAX_NAME_LENGTH: nat := 30
  const MSG_EMPTY: string := "이름을 입력해 주세요."
  const MSG_TOO_LONG: string := "30자 이내로 입력해 주세요."
  const MSG_BAD_CHARS: string := "영문 대소문자와 공백만 사용할 수 있습니다."

  /** Some character is not whitespace. */
  predicate HasNonSpace(value: string) {
    exists k :: 0 <= k < |value| && !IsSpace(value[k])
  }

  /** Every character is an ASCII letter or a space. */
  predicate OnlyLettersAndSpaces(value: string) {
    forall k :: 0 <= k < |value| ==> IsLetter(value[k]) || value[k] == ' '
  }

  /**
   * `value.length`: JavaScript counts UTF-16 code units, so a character
   * outside the Basic Multilingual Plane counts twice.
   */
  function Utf16Length(s: string): (n: nat)
    ensures |s| <= n <= 2 * |s|
  {
    if s == [] then 0
    else (if s[0] as int < 0x1_0000 then 1 else 2) + Utf16Length(s[1..])
  }

  /** Every character is a single UTF-16 code unit. */
  predicate InBasicPlane(s: string) {
    forall k :: 0 <= k < |s| ==> s[k] as int < 0x1_0000
  }

  /** Without characters outside the Basic Multilingual Plane, `length` counts characters. */
  lemma {:induction false} BasicPlaneLength(s: string)
    requires InBasicPlane(s)
    ensures Utf16Length(s) == |s|
  {
    if s != [] {
      assert InBasicPlane(s[1..]) by {
        forall k | 0 <= k < |s| - 1 ensures s[1..][k] as int < 0x1_0000 {
          assert s[1..][k] == s[k + 1];
        }
      }
      BasicPlaneLength(s[1..]);
    }
  }

  /** `/^[A-Za-z ]+$/.test(value)` */
  predicate MatchesNamePattern(value: string) {
    |value| > 0 && OnlyLettersAndSpaces(value)
  }

  /**
   * validateName: the empty string when the name is acceptable, otherwise
   * the message of the first rule it breaks — blank, longer than 30
   * UTF-16 code units (counted before trimming), or a character other than
   * an ASCII letter or a space.
   */
  function ValidateName(value: string): (msg: string)
    ensures msg == "" <==> HasNonSpace(value) && Utf16Length(value) <= MAX_NAME_LENGTH && OnlyLettersAndSpaces(value)
    ensures msg == MSG_EMPTY <==> !HasNonSpace(value)
    ensures msg == MSG_TOO_LONG <==> HasNonSpace(value) && Utf16Length(value) > MAX_NAME_LENGTH
    ensures msg == MSG_BAD_CHARS <==>
      HasNonSpace(value) && Utf16Length(value) <= MAX_NAME_LENGTH && !OnlyLettersAndSpaces(value)
  {
    if Trim(value) == [] then MSG_EMPTY
    else if Utf16Length(value) > MAX_NAME_LENGTH then MSG_TOO_LONG
    else if !MatchesNamePattern(value) then MSG_BAD_CHARS
    else ""
  }

  /** An accepted name has 1 to 30 characters, at least one of them a letter. */
  lemma ValidNameShape(value: string)
    requires ValidateName(value) == ""
    ensures 1 <= |value| <= MAX_NAME_LENGTH
    ensures exists k :: 0 <= k < |value| && IsLetter(value[k])
  {
    var k :| 0 <= k < |value| && !IsSpace(value[k]);
    assert IsLetter(value[k]);
  }

  // ---------------------------------------------------------------------
  // Entities
  // ---------------------------------------------------------------------

  /** A recommendation as the conversion endpoint returns it. */
  datatype Candidate = Candidate(koreanName: string, meaning: string, eraScore: real, gender: string)

  /** An entry of the saved list: the typed name, the candidate's fields and a time stamp. */
  datatype SavedItem = SavedItem(
    englishName: string, koreanName: string, meaning: string, eraScore: real, gender: string,
    savedAt: string, id: Option<int>)

  /** A request to the back end. */
  datatype ApiCall = Convert(name: string) | SaveHistory(englishName: string, koreanName: string) | DeleteHistory(id: int)

  /** What the conversion request produced: a list of candidates, or an error message. */
  datatype FetchOutcome = Fetched(candidates: seq<Candidate>) | FetchFailed(message: string)

  // ---------------------------------------------------------------------
  // saveCurrent
  // ---------------------------------------------------------------------

  /** `{ englishName: name, ...current, savedAt }`: candidates carry no id, so neither does the item. */
  function NewItem(name: string, current: Candidate, savedAt: string): (item: SavedItem)
    ensures item.englishName == name && item.koreanName == current.koreanName && item.savedAt == savedAt
    ensures item.meaning == current.meaning && item.eraScore == current.eraScore && item.gender == current.gender
    ensures item.id.None?
  {
    SavedItem(name, current.koreanName, current.meaning, current.eraScore, current.gender, savedAt, None)
  }

  /** The entry stands for the same choice: same Korean name, same English name up to case and surrounding blanks. */
  predicate SameEntry(item: SavedItem, koreanName: string, name: string) {
    item.koreanName == koreanName && Lower(Trim(item.englishName)) == Lower(Trim(name))
  }

  /** The duplicate test, with both English names trimmed before they are compared. */
  predicate IsDuplicate(saved: seq<SavedItem>, koreanName: string, name: string) {
    exists i :: 0 <= i < |saved| && SameEntry(saved[i], koreanName, name)
  }

  /** The duplicate test as written: only the typed name is trimmed, the stored one is not. */
  predicate IsDuplicateAsWritten(saved: seq<SavedItem>, koreanName: string, name: string) {
    exists i :: 0 <= i < |saved| && saved[i].koreanName == koreanName &&
      Lower(saved[i].englishName) == Lower(Trim(name))
  }

  /** No two entries of the list stand for the same choice. */
  predicate NoDuplicates(saved: seq<SavedItem>) {
    forall i, j :: 0 <= i < j < |saved| ==> !SameEntry(saved[j], saved[i].koreanName, saved[i].englishName)
  }

  /**
   * The duplicate test as written refuses `earlier` when `later` is already
   * stored: same Korean name, and the stored English name, lower-cased but
   * untrimmed, equals the trimmed and lower-cased new one.
   */
  predicate RepeatsAsWritten(later: SavedItem, earlier: SavedItem) {
    later.koreanName == earlier.koreanName && Lower(later.englishName) == Lower(Trim(earlier.englishName))
  }

  /** What the test as written keeps: no entry would have been refused against the older entries below it. */
  predicate NoRepeatsAsWritten(saved: seq<SavedItem>) {
    forall i, j :: 0 <= i < j < |saved| ==> !RepeatsAsWritten(saved[j], saved[i])
  }

  /** The saved list after saving `current` under `name`: unchanged for a duplicate, otherwise the new item first. */
  function Save(saved: seq<SavedItem>, name: string, current: Candidate, savedAt: string): (r: seq<SavedItem>)
    ensures IsDuplicate(saved, current.koreanName, name) ==> r == saved
    ensures !IsDuplicate(saved, current.koreanName, name) ==>
      |r| == |saved| + 1 && r[0] == NewItem(name, current, savedAt) && r[1..] == saved
  {
    if IsDuplicate(saved, current.koreanName, name) then saved
    else [NewItem(name, current, savedAt)] + saved
  }

  /** The saved list after saving, with the duplicate test as written. */
  function SaveAsWritten(saved: seq<SavedItem>, name: string, current: Candidate, savedAt: string): (r: seq<SavedItem>)
    ensures IsDuplicateAsWritten(saved, current.koreanName, name) ==> r == saved
    ensures !IsDuplicateAsWritten(saved, current.koreanName, name) ==>
      |r| == |saved| + 1 && r[0] == NewItem(name, current, savedAt) && r[1..] == saved
  {
    if IsDuplicateAsWritten(saved, current.koreanName, name) then saved
    else [NewItem(name, current, savedAt)] + saved
  }

  /** After saving, the choice is in the list, so saving it again is refused. */
  lemma SaveRemembers(saved: seq<SavedItem>, name: string, current: Candidate, savedAt: string)
    ensures IsDuplicate(Save(saved, name, current, savedAt), current.koreanName, name)
  {
    var r := Save(saved, name, current, savedAt);
    if !IsDuplicate(saved, current.koreanName, name) {
      assert SameEntry(r[0], current.koreanName, name);
    }
  }

  /** Saving the same choice twice leaves the list as saving it once. */
  lemma SaveIdempotent(saved: seq<SavedItem>, name: string, current: Candidate, t1: string, t2: string)
    ensures Save(Save(saved, name, current, t1), name, current, t2) == Save(saved, name, current, t1)
  {
    SaveRemembers(saved, name, current, t1);
  }

  /** Saving keeps the list free of duplicates. */
  lemma SaveKeepsNoDuplicates(saved: seq<SavedItem>, name: string, current: Candidate, savedAt: string)
    requires NoDuplicates(saved)
    ensures NoDuplicates(Save(saved, name, current, savedAt))
  {
    var r := Save(saved, name, current, savedAt);
    if !IsDuplicate(saved, current.koreanName, name) {
      forall i, j | 0 <= i < j < |r| ensures !SameEntry(r[j], r[i].koreanName, r[i].englishName) {
        if i == 0 {
          assert r[j] == saved[j - 1];
          assert !SameEntry(saved[j - 1], current.koreanName, name);
        } else {
          assert r[i] == saved[i - 1] && r[j] == saved[j - 1];
        }
      }
    }
  }

  /**
   * With the duplicate test as written, a name typed with a leading blank
   * is saved a second time: the stored " Bob" is compared, untrimmed, with
   * the trimmed "bob".
   */
  lemma PaddedNameSavedTwice(current: Candidate, t1: string, t2: string)
    ensures |SaveAsWritten(SaveAsWritten([], " Bob", current, t1), " Bob", current, t2)| == 2
  {
    var once := SaveAsWritten([], " Bob", current, t1);
    assert !IsDuplicateAsWritten([], current.koreanName, " Bob");
    assert once == [NewItem(" Bob", current, t1)];
    var tr := Trim(" Bob");
    assert |tr| < 4;
    assert |Lower(once[0].englishName)| == 4;
    assert !IsDuplicateAsWritten(once, current.koreanName, " Bob");
  }

  /** Saving with the test as written keeps the list free of entries that test would refuse. */
  lemma SaveAsWrittenKeepsNoRepeats(saved: seq<SavedItem>, name: string, current: Candidate, savedAt: string)
    requires NoRepeatsAsWritten(saved)
    ensures NoRepeatsAsWritten(SaveAsWritten(saved, name, current, savedAt))
  {
    var r := SaveAsWritten(saved, name, current, savedAt);
    if !IsDuplicateAsWritten(saved, current.koreanName, name) {
      forall i, j | 0 <= i < j < |r| ensures !RepeatsAsWritten(r[j], r[i]) {
        if i == 0 {
          assert r[j] == saved[j - 1];
          assert !(saved[j - 1].koreanName == current.koreanName &&
                   Lower(saved[j - 1].englishName) == Lower(Trim(name)));
        } else {
          assert r[i] == saved[i - 1] && r[j] == saved[j - 1];
        }
      }
    }
  }

  /** A name typed without surrounding blanks is refused the second time also by the test as written. */
  lemma SaveAsWrittenIdempotentOnTrimmedName(saved: seq<SavedItem>, name: string, current: Candidate, t1: string, t2: string)
    requires Trim(name) == name
    ensures SaveAsWritten(SaveAsWritten(saved, name, current, t1), name, current, t2)
         == SaveAsWritten(saved, name, current, t1)
  {
    var once := SaveAsWritten(saved, name, current, t1);
    if !IsDuplicateAsWritten(saved, current.koreanName, name) {
      assert once[0].koreanName == current.koreanName && Lower(once[0].englishName) == Lower(Trim(name));
    }
  }

  /** When every stored name is already trimmed, the test as written and the corrected test agree. */
  lemma AsWrittenAgreesOnTrimmedNames(saved: seq<SavedItem>, koreanName: string, name: string)
    requires forall i :: 0 <= i < |saved| ==> Trim(saved[i].englishName) == saved[i].englishName
    ensures IsDuplicateAsWritten(saved, koreanName, name) <==> IsDuplicate(saved, koreanName, name)
  {
    if IsDuplicateAsWritten(saved, koreanName, name) {
      var i :| 0 <= i < |saved| && saved[i].koreanName == koreanName &&
        Lower(saved[i].englishName) == Lower(Trim(name));
      assert SameEntry(saved[i], koreanName, name);
    }
    if IsDuplicate(saved, koreanName, name) {
      var i :| 0 <= i < |saved| && SameEntry(saved[i], koreanName, name);
      assert Trim(saved[i].englishName) == saved[i].englishName;
    }
  }

  // ---------------------------------------------------------------------
  // deleteSaved
  // ---------------------------------------------------------------------

  /** `list.filter((_, i) => i !== idx)` */
  function RemoveAt<T>(s: seq<T>, idx: int): (r: seq<T>)
    ensures |r| == if 0 <= idx < |s| then |s| - 1 else |s|
  {
    if s == [] then []
    else RemoveAt(s[..|s| - 1], idx) + (if idx == |s| - 1 then [] else [s[|s| - 1]])
  }

  /** Removal by index drops exactly the element at `idx` and keeps the others in order; any other `idx` changes nothing. */
  lemma {:induction false} RemoveAtSlices<T>(s: seq<T>, idx: int)
    ensures 0 <= idx < |s| ==> RemoveAt(s, idx) == s[..idx] + s[idx + 1..]
    ensures !(0 <= idx < |s|) ==> RemoveAt(s, idx) == s
  {
    if s != [] {
      var init := s[..|s| - 1];
      RemoveAtSlices(init, idx);
      if 0 <= idx < |s| - 1 {
        assert init[..idx] == s[..idx];
        assert init[idx + 1..] + [s[|s| - 1]] == s[idx + 1..];
      } else if idx == |s| - 1 {
        assert init == s[..idx];
        assert s[idx + 1..] == [];
      } else {
        assert init + [s[|s| - 1]] == s;
      }
    }
  }

  /** Removing an entry keeps the list free of duplicates. */
  lemma RemoveKeepsNoDuplicates(saved: seq<SavedItem>, idx: int)
    requires NoDuplicates(saved)
    ensures NoDuplicates(RemoveAt(saved, idx))
  {
    RemoveAtSlices(saved, idx);
    if 0 <= idx < |saved| {
      var r := RemoveAt(saved, idx);
      forall i, j | 0 <= i < j < |r| ensures !SameEntry(r[j], r[i].koreanName, r[i].englishName) {
        var i' := if i < idx then i else i + 1;
        var j' := if j < idx then j else j + 1;
        assert r[i] == saved[i'] && r[j] == saved[j'];
      }
    }
  }

  /** Removing an entry keeps the list free of entries the test as written would refuse. */
  lemma RemoveKeepsNoRepeatsAsWritten(saved: seq<SavedItem>, idx: int)
    requires NoRepeatsAsWritten(saved)
    ensures NoRepeatsAsWritten(RemoveAt(saved, idx))
  {
    RemoveAtSlices(saved, idx);
    if 0 <= idx < |saved| {
      var r := RemoveAt(saved, idx);
      forall i, j | 0 <= i < j < |r| ensures !RepeatsAsWritten(r[j], r[i]) {
        var i' := if i < idx then i else i + 1;
        var j' := if j < idx then j else j + 1;
        assert r[i] == saved[i'] && r[j] == saved[j'];
      }
    }
  }

  /** Deleting the entry just saved gives back the list from before. */
  lemma SaveThenDeleteRestores(saved: seq<SavedItem>, name: string, current: Candidate, savedAt: string)
    requires !IsDuplicate(saved, current.koreanName, name)
    ensures RemoveAt(Save(saved, name, current, savedAt), 0) == saved
  {
    RemoveAtSlices(Save(saved, name, current, savedAt), 0);
  }

  /** The back-end delete for entry `idx`: only for an entry that exists and has a (non-zero) id. */
  function DeleteRequest(saved: seq<SavedItem>, idx: int): (call: Option<ApiCall>)
    ensures call.Some? <==> 0 <= idx < |saved| && saved[idx].id.Some? && saved[idx].id.value != 0
    ensures call.Some? ==> call.value == DeleteHistory(saved[idx].id.value)
  {
    if 0 <= idx < |saved| && saved[idx].id.Some? && saved[idx].id.value != 0 then
      Some(DeleteHistory(saved[idx].id.value))
    else None
  }

  // ---------------------------------------------------------------------
  // The page's state
  // ---------------------------------------------------------------------

  class App {
    var name: string
    var candidates: seq<Candidate>
    var loading: bool
    var error: string
    var selectedIndex: nat
    var savedList: seq<SavedItem>
    /** Requests sent to the back end, oldest first. */
    var outbox: seq<ApiCall>

    /**
     * The selection points into a non-empty candidate list, and no saved
     * entry would have been refused, by the duplicate test as written,
     * against an older one.
     */
    ghost predicate Valid()
      reads this
    {
      && (candidates == [] || selectedIndex < |candidates|)
      && NoRepeatsAsWritten(savedList)
    }

    constructor ()
      ensures Valid()
      ensures name == "" && candidates == [] && !loading && error == "" && selectedIndex == 0
      ensures savedList == [] && outbox == []
    {
      name, candidates, loading, error, selectedIndex := "", [], false, "", 0;
      savedList, outbox := [], [];
    }

    /** handleChange: store the typed value and show its validation message at once. */
    method HandleChange(value: string)
      requires Valid()
      modifies this
      ensures Valid()
      ensures name == value && error == ValidateName(value)
      ensures candidates == old(candidates) && selectedIndex == old(selectedIndex) && loading == old(loading)
      ensures savedList == old(savedList) && outbox == old(outbox)
    {
      name := value;
      error := ValidateName(value);
    }

    /**
     * handleSubmit: an invalid name only sets the error message; a valid one
     * is sent for conversion, and the answer either replaces the candidates
     * (selecting the first) or becomes the error message.
     */
    method HandleSubmit(outcome: FetchOutcome)
      requires Valid()
      modifies this
      ensures Valid()
      ensures name == old(name) && savedList == old(savedList)
      ensures ValidateName(name) != "" ==>
        && error == ValidateName(name)
        && candidates == old(candidates) && selectedIndex == old(selectedIndex)
        && loading == old(loading) && outbox == old(outbox)
      ensures ValidateName(name) == "" ==> !loading && outbox == old(outbox) + [Convert(name)]
      ensures ValidateName(name) == "" && outcome.Fetched? ==>
        candidates == outcome.candidates && selectedIndex == 0 && error == ""
      ensures ValidateName(name) == "" && outcome.FetchFailed? ==>
        candidates == old(candidates) && selectedIndex == old(selectedIndex) && error == outcome.message
    {
      var msg := ValidateName(name);
      assert savedList == old(savedList);
      if msg != "" {
        error := msg;
        return;
      }
      loading := true;
      error := "";
      outbox := outbox + [Convert(name)];
      match outcome {
        case Fetched(arr) =>
          candidates := arr;
          selectedIndex := 0;
        case FetchFailed(message) =>
          error := message;
      }
      loading := false;
    }

    /** handleSelect: select one of the listed candidates. */
    method HandleSelect(idx: nat)
      requires Valid()
      requires idx < |candidates|
      modifies this
      ensures Valid()
      ensures selectedIndex == idx
      ensures name == old(name) && candidates == old(candidates) && loading == old(loading) && error == old(error)
      ensures savedList == old(savedList) && outbox == old(outbox)
    {
      selectedIndex := idx;
    }

    /**
     * saveCurrent: nothing without candidates; otherwise the selected
     * candidate is saved under the typed name unless the duplicate test, as
     * the page writes it, finds it in the list, and a save request goes to
     * the back end.
     */
    method SaveCurrent(savedAt: string)
      requires Valid()
      modifies this
      ensures Valid()
      ensures name == old(name) && candidates == old(candidates) && selectedIndex == old(selectedIndex)
      ensures loading == old(loading) && error == old(error)
      ensures candidates == [] ==> savedList == old(savedList) && outbox == old(outbox)
      ensures candidates != [] ==>
        savedList == SaveAsWritten(old(savedList), name, candidates[selectedIndex], savedAt)
      ensures candidates != [] && IsDuplicateAsWritten(old(savedList), candidates[selectedIndex].koreanName, name) ==>
        outbox == old(outbox)
      ensures candidates != [] && !IsDuplicateAsWritten(old(savedList), candidates[selectedIndex].koreanName, name) ==>
        outbox == old(outbox) + [SaveHistory(name, candidates[selectedIndex].koreanName)]
    {
      if |candidates| == 0 {
        return;
      }
      var current := candidates[selectedIndex];
      if IsDuplicateAsWritten(savedList, current.koreanName, name) {
        return;
      }
      SaveAsWrittenKeepsNoRepeats(savedList, name, current, savedAt);
      savedList := [NewItem(name, current, savedAt)] + savedList;
      outbox := outbox + [SaveHistory(name, current.koreanName)];
    }

    /** deleteSaved: remove entry `idx` and ask the back end to delete it when it has an id. */
    method DeleteSaved(idx: int)
      requires Valid()
      modifies this
      ensures Valid()
      ensures name == old(name) && candidates == old(candidates) && selectedIndex == old(selectedIndex)
      ensures loading == old(loading) && error == old(error)
      ensures savedList == RemoveAt(old(savedList), idx)
      ensures outbox == old(outbox) + (match DeleteRequest(old(savedList), idx)
                                        case Some(call) => [call]
                                        case None => [])
    {
      var request := DeleteRequest(savedList, idx);
      RemoveKeepsNoRepeatsAsWritten(savedList, idx);
      savedList := RemoveAt(savedList, idx);
      match request {
        case Some(call) => outbox := outbox + [call];
        case None =>
      }
    }
  }

  /**
   * The save-and-delete flow: type "Bob", get one candidate, save it (the
   * list has one entry), delete entry 0 (the list is empty again).
   */
  method SaveThenDeleteFlow(current: Candidate, savedAt: string) returns (afterSave: nat, afterDelete: nat)
    ensures afterSave == 1 && afterDelete == 0
  {
    assert ValidateName("Bob") == "" by {
      BasicPlaneLength("Bob");
      assert !IsSpace("Bob"[0]);
    }
    var app := new App();
    app.HandleChange("Bob");
    app.HandleSubmit(Fetched([current]));
    app.SaveCurrent(savedAt);
    afterSave := |app.savedList|;
    app.DeleteSaved(0);
    afterDelete := |app.savedList|;
  }
}
