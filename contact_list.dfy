/**
 * The key-driven contact list: digit keys build a search string, key 21
 * deletes from it, key 294 toggles whether offline users are listed, the
 * up/down keys move a selection cyclically over the filtered users, and
 * Enter makes the selected user the SDK's selected contact.
 */
module MinimalContactList {
  import opened Sdk
  import opened Strings
  import opened Cyclic

  const KeyDigit0 := 7      // KEYCODE_0; KEYCODE_9 is 16
  const KeyUp := 19         // DPAD_UP
  const KeyDown := 20       // DPAD_DOWN
  const KeyDelete := 21     // DPAD_LEFT, used as backspace
  const KeyEnter := 66
  const KeyToggleOffline := 294

  /** A `string | null` is truthy when it is a non-empty string. */
  predicate Truthy(s: Option<string>) {
    s.Some? && s.value != ""
  }

  // ---------------------------------------------------------------- search text

  /** updateSearchText: append the digit of key `key` or, from null or "", start over with it. */
  function AppendDigit(search: Option<string>, key: int): (r: Option<string>)
    requires KeyDigit0 <= key <= KeyDigit0 + 9
    ensures r.Some? && |r.value| >= 1
    ensures r.value[|r.value| - 1] == DigitChar(key - KeyDigit0)
    ensures r.value[..|r.value| - 1] == (if Truthy(search) then search.value else "")
  {
    var digit := [DigitChar(key - KeyDigit0)];
    if Truthy(search) then Some(search.value + digit) else Some(digit)
  }

  /** removeLastCharacterFromSearch: drop the last character; null or "" become null. */
  function RemoveLast(search: Option<string>): (r: Option<string>)
    ensures !Truthy(search) <==> r.None?
    ensures r.Some? ==> search.value == r.value + [search.value[|search.value| - 1]]
  {
    if Truthy(search) then Some(search.value[..|search.value| - 1]) else None
  }

  /**
   * Typing a digit and deleting it again restores a non-empty search, but
   * turns null into "" rather than back into null.
   */
  lemma AppendThenRemove(search: Option<string>, key: int)
    requires KeyDigit0 <= key <= KeyDigit0 + 9
    ensures RemoveLast(AppendDigit(search, key)) == if Truthy(search) then search else Some("")
  {
    var typed := AppendDigit(search, key).value;
    assert typed[..|typed| - 1] == (if Truthy(search) then search.value else "");
  }

  // ---------------------------------------------------------------- filtering

  /** A user stays in the list when online (or offline users are shown) and matches the search. */
  predicate Keep(u: User, showOffline: bool, search: Option<string>) {
    (showOffline || u.status == "available")
    && (!Truthy(search) || Includes(Lower(u.displayName), Lower(search.value)))
  }

  /** updateFilteredUsers: the two filter passes, which keep the users' order. */
  function FilterUsers(users: seq<User>, showOffline: bool, search: Option<string>): (r: seq<User>)
    ensures |r| <= |users|
    ensures forall u :: u in r <==> u in users && Keep(u, showOffline, search)
  {
    if users == [] then []
    else (if Keep(users[0], showOffline, search) then [users[0]] else [])
         + FilterUsers(users[1..], showOffline, search)
  }

  /** `r` is `s` with some elements left out and the rest in their order. */
  predicate IsSubsequence<T(==)>(r: seq<T>, s: seq<T>)
    decreases |s|
  {
    r == [] || (s != [] && (if r[0] == s[0] then IsSubsequence(r[1..], s[1..]) else IsSubsequence(r, s[1..])))
  }

  lemma {:induction false} FilterIsSubsequence(users: seq<User>, showOffline: bool, search: Option<string>)
    ensures IsSubsequence(FilterUsers(users, showOffline, search), users)
    decreases |users|
  {
    if users != [] {
      var rest := FilterUsers(users[1..], showOffline, search);
      FilterIsSubsequence(users[1..], showOffline, search);
      if Keep(users[0], showOffline, search) {
        assert FilterUsers(users, showOffline, search) == [users[0]] + rest;
        assert ([users[0]] + rest)[1..] == rest;
      } else {
        assert FilterUsers(users, showOffline, search) == rest;
        if rest != [] {
          assert Keep(rest[0], showOffline, search) by { assert rest[0] in rest; }
        }
      }
    }
  }

  /** Filtering distributes over concatenation: each user is kept or dropped on its own. */
  lemma {:induction false} FilterAppend(a: seq<User>, b: seq<User>, showOffline: bool, search: Option<string>)
    ensures FilterUsers(a + b, showOffline, search) == FilterUsers(a, showOffline, search) + FilterUsers(b, showOffline, search)
    decreases |a|
  {
    if a == [] {
      assert a + b == b;
    } else {
      assert (a + b)[0] == a[0] && (a + b)[1..] == a[1..] + b;
      FilterAppend(a[1..], b, showOffline, search);
    }
  }

  /** Refiltering the filtered list changes nothing. */
  lemma {:induction false} FilterIdempotent(users: seq<User>, showOffline: bool, search: Option<string>)
    ensures FilterUsers(FilterUsers(users, showOffline, search), showOffline, search) == FilterUsers(users, showOffline, search)
    decreases |users|
  {
    if users != [] {
      var head := if Keep(users[0], showOffline, search) then [users[0]] else [];
      FilterAppend(head, FilterUsers(users[1..], showOffline, search), showOffline, search);
      FilterIdempotent(users[1..], showOffline, search);
    }
  }

  /** With offline users shown and no search text, every user is listed. */
  lemma {:induction false} NoFilterKeepsAll(users: seq<User>, search: Option<string>)
    requires !Truthy(search)
    ensures FilterUsers(users, true, search) == users
    decreases |users|
  {
    if users != [] {
      NoFilterKeepsAll(users[1..], search);
    }
  }

  // ---------------------------------------------------------------- selection

  /** moveSelectionDown, over a filtered list of `len` users. */
  function MoveDown(len: nat, prev: Option<int>): (r: Option<int>)
    ensures r.None? <==> len == 0
    ensures (prev.None? || prev.value >= -1) && r.Some? ==> 0 <= r.value < len
    ensures len > 0 && prev.Some? && 0 <= prev.value < len - 1 ==> r == Some(prev.value + 1)
    ensures len > 0 && (prev.None? || prev.value == len - 1) ==> r == Some(0)
  {
    if len == 0 then None
    else if prev.None? || prev.value >= len - 1 then Some(0)
    else Some(prev.value + 1)
  }

  /** moveSelectionUp, over a filtered list of `len` users. */
  function MoveUp(len: nat, prev: Option<int>): (r: Option<int>)
    ensures r.None? <==> len == 0
    ensures (prev.None? || prev.value <= len) && r.Some? ==> 0 <= r.value < len
    ensures len > 0 && prev.Some? && 0 < prev.value < len ==> r == Some(prev.value - 1)
    ensures len > 0 && (prev.None? || prev.value == 0) ==> r == Some(len - 1)
  {
    if len == 0 then None
    else if prev.None? || prev.value <= 0 then Some(len - 1)
    else Some(prev.value - 1)
  }

  /** Down then up, or up then down, returns to an in-range selection. */
  lemma UpUndoesDown(len: nat, i: int)
    requires 0 <= i < len
    ensures MoveUp(len, MoveDown(len, Some(i))) == Some(i)
    ensures MoveDown(len, MoveUp(len, Some(i))) == Some(i)
  {
  }

  function IterateDown(len: nat, sel: Option<int>, presses: nat): Option<int>
    decreases presses
  {
    if presses == 0 then sel else IterateDown(len, MoveDown(len, sel), presses - 1)
  }

  /** `presses` down-presses from an in-range selection move it `presses` places, cyclically. */
  lemma {:induction false} IterateDownIsRotation(len: nat, i: nat, presses: nat)
    requires i < len
    ensures IterateDown(len, Some(i), presses) == Some(Wrap(i + presses, len))
    decreases presses
  {
    if presses > 0 {
      var next := if i == len - 1 then 0 else i + 1;
      assert MoveDown(len, Some(i)) == Some(next);
      IterateDownIsRotation(len, next, presses - 1);
      if i == len - 1 {
        assert Wrap(i + presses, len) == Wrap(presses - 1, len);
      }
    }
  }

  /** `len` down-presses go all the way round. */
  lemma FullCycleReturns(len: nat, i: nat)
    requires i < len
    ensures IterateDown(len, Some(i), len) == Some(i)
  {
    IterateDownIsRotation(len, i, len);
    assert Wrap(i + len, len) == Wrap(i, len);
  }

  /** handleEnterKey: with a selection, select that user and go to "index"; otherwise nothing. */
  function EnterActions(filtered: seq<User>, selection: Option<int>): (r: seq<Action>)
    ensures selection.None? <==> r == []
    ensures selection.Some? && 0 <= selection.value < |filtered| ==>
              r == [SelectContact(Some(UserContact(filtered[selection.value]))), Navigate("index")]
  {
    if selection.None? then []
    else
      var picked := if 0 <= selection.value < |filtered| then Some(UserContact(filtered[selection.value])) else None;
      [SelectContact(picked), Navigate("index")]
  }

  // ---------------------------------------------------------------- status icon

  datatype Icon = Icon(name: string, color: string)

  /** getUserStatusIcon: a close icon for "standby", a checkmark for "available", nothing otherwise. */
  function UserStatusIcon(status: string): (r: Option<Icon>)
    ensures r.Some? <==> status == "standby" || status == "available"
    ensures status == "standby" ==> r == Some(Icon("close-circle-outline", "#ef5e14"))
    ensures status == "available" ==> r == Some(Icon("checkmark-circle-outline", "#00ff00"))
  {
    if status == "standby" then Some(Icon("close-circle-outline", "#ef5e14"))
    else if status == "available" then Some(Icon("checkmark-circle-outline", "#00ff00"))
    else None
  }

  // ---------------------------------------------------------------- the screen

  class ContactListScreen {
    var users: seq<User>
    /**
     * The identity of the array `users` came in: React compares effect
     * dependencies by identity, so only a new array refilters.
     */
    var usersArray: nat
    var showOffline: bool
    var searchText: Option<string>
    var filteredUsers: seq<User>
    var selectedUserIndex: Option<int>
    /** The key value the key effect last ran with: it runs again only when the value changes. */
    var keyEvent: Option<int>
    var log: seq<Action>

    ghost predicate Valid()
      reads this
    {
      filteredUsers == FilterUsers(users, showOffline, searchText)
      && (selectedUserIndex.Some? ==> 0 <= selectedUserIndex.value < |filteredUsers|)
    }

    /** Mounting with no key held: the initial state, after the first refilter effect. */
    constructor (users: seq<User>, ref: nat)
      ensures Valid()
      ensures this.users == users && usersArray == ref && !showOffline && searchText == None
      ensures selectedUserIndex == None && keyEvent == None && log == []
    {
      this.users := users;
      usersArray := ref;
      showOffline := false;
      searchText := None;
      filteredUsers := FilterUsers(users, false, None);
      selectedUserIndex := None;
      keyEvent := None;
      log := [];
    }

    /** The effect on [users, showOffline, searchText]. */
    method UpdateFilteredUsers()
      modifies this
      ensures filteredUsers == FilterUsers(users, showOffline, searchText)
      ensures selectedUserIndex == None
      ensures users == old(users) && usersArray == old(usersArray)
      ensures showOffline == old(showOffline) && searchText == old(searchText)
      ensures keyEvent == old(keyEvent) && log == old(log)
    {
      filteredUsers := FilterUsers(users, showOffline, searchText);
      selectedUserIndex := None;
    }

    /**
     * The provider hands the screen the user array `ref` with contents
     * `newUsers`. The same array again is no change to React; a new array,
     * whatever its contents, is refiltered and drops the selection.
     */
    method OnUsersChanged(newUsers: seq<User>, ref: nat)
      requires Valid()
      modifies this
      ensures Valid()
      ensures showOffline == old(showOffline) && searchText == old(searchText)
      ensures keyEvent == old(keyEvent) && log == old(log)
      ensures ref == old(usersArray) ==>
                users == old(users) && filteredUsers == old(filteredUsers) && selectedUserIndex == old(selectedUserIndex)
      ensures ref != old(usersArray) ==>
                users == newUsers && usersArray == ref && selectedUserIndex == None
                && filteredUsers == FilterUsers(newUsers, showOffline, searchText)
    {
      if ref != usersArray {
        users, usersArray := newUsers, ref;
        UpdateFilteredUsers();
      }
    }

    /**
     * The key latch takes the value `key`. When it changed, the key effect
     * dispatches on it; when that changed the search text or the offline
     * toggle, the filter effect follows and drops the selection.
     */
    method OnKeyEvent(key: Option<int>)
      requires Valid()
      modifies this
      ensures Valid()
      ensures keyEvent == key && users == old(users) && usersArray == old(usersArray)
      ensures key == old(keyEvent) || key.None? ==>
                showOffline == old(showOffline) && searchText == old(searchText)
                && selectedUserIndex == old(selectedUserIndex) && log == old(log)
      ensures key != old(keyEvent) && key.Some? && KeyDigit0 <= key.value <= KeyDigit0 + 9 ==>
                searchText == AppendDigit(old(searchText), key.value) && showOffline == old(showOffline)
                && selectedUserIndex == None && log == old(log)
      ensures key != old(keyEvent) && key == Some(KeyDelete) ==>
                searchText == RemoveLast(old(searchText)) && showOffline == old(showOffline) && log == old(log)
                && selectedUserIndex == (if searchText == old(searchText) then old(selectedUserIndex) else None)
      ensures key != old(keyEvent) && key == Some(KeyDown) ==>
                selectedUserIndex == MoveDown(|filteredUsers|, old(selectedUserIndex))
                && searchText == old(searchText) && showOffline == old(showOffline) && log == old(log)
      ensures key != old(keyEvent) && key == Some(KeyUp) ==>
                selectedUserIndex == MoveUp(|filteredUsers|, old(selectedUserIndex))
                && searchText == old(searchText) && showOffline == old(showOffline) && log == old(log)
      ensures key != old(keyEvent) && key == Some(KeyEnter) ==>
                log == old(log) + EnterActions(filteredUsers, selectedUserIndex)
                && searchText == old(searchText) && showOffline == old(showOffline)
                && selectedUserIndex == old(selectedUserIndex)
      ensures key != old(keyEvent) && key == Some(KeyToggleOffline) ==>
                showOffline == !old(showOffline) && searchText == old(searchText)
                && selectedUserIndex == None && log == old(log)
      ensures key != old(keyEvent) && key.Some?
              && !(KeyDigit0 <= key.value <= KeyDigit0 + 9)
              && key.value !in {KeyDelete, KeyDown, KeyUp, KeyEnter, KeyToggleOffline} ==>
                showOffline == old(showOffline) && searchText == old(searchText)
                && selectedUserIndex == old(selectedUserIndex) && log == old(log)
    {
      if key == keyEvent {
        return;
      }
      keyEvent := key;
      if key.None? {
        return;
      }
      var k := key.value;
      if KeyDigit0 <= k <= KeyDigit0 + 9 {
        var oldSearch := searchText;
        searchText := AppendDigit(searchText, k);
        if searchText != oldSearch {
          UpdateFilteredUsers();
        }
      } else if k == KeyDelete {
        var oldSearch := searchText;
        searchText := RemoveLast(searchText);
        if searchText != oldSearch {
          UpdateFilteredUsers();
        }
      } else if k == KeyDown {
        selectedUserIndex := MoveDown(|filteredUsers|, selectedUserIndex);
      } else if k == KeyUp {
        selectedUserIndex := MoveUp(|filteredUsers|, selectedUserIndex);
      } else if k == KeyEnter {
        log := log + EnterActions(filteredUsers, selectedUserIndex);
      } else if k == KeyToggleOffline {
        showOffline := !showOffline;
        UpdateFilteredUsers();
      }
    }
  }

  /**
   * Selecting with the keys and pressing Enter picks the user shown at that
   * place of the filtered list: from a fresh screen, one down-press and Enter
   * select the first listed user.
   */
  method DownThenEnterSelectsFirst(users: seq<User>) returns (actions: seq<Action>)
    ensures var listed := FilterUsers(users, false, None);
            actions == if listed == [] then [] else [SelectContact(Some(UserContact(listed[0]))), Navigate("index")]
  {
    var screen := new ContactListScreen(users, 0);
    screen.OnKeyEvent(Some(KeyDown));
    screen.OnKeyEvent(None);
    screen.OnKeyEvent(Some(KeyEnter));
    actions := screen.log;
  }
}
