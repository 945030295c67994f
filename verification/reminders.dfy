/**
 * The client-side Reminders list ("read later"): a dictionary keyed by story
 * id that the page holds in a global instance and mirrors into the stored
 * user data. Toggling a story adds or removes its entry, unless the instance
 * and the stored data have drifted apart for that story, in which case the
 * instance is resynchronised from the stored data instead.
 *
 * `Date.now()` is a parameter; local storage, the view update, notifications
 * and the debounced save request are not modelled.
 */
module Reminders {
  import opened Optional

  /** A story id as the page passes it: the string of a `data-story-id` attribute. */
  type StoryKey = string

  /** One reminder: `story_id` (None when parseInt gives NaN) and `timestamp`. */
  datatype Reminder = Reminder(storyId: Option<int>, timestamp: int)

  type ReminderMap = map<StoryKey, Reminder>

  /** The `data` member as it arrives from the server: an empty PHP array encodes as `[]`. */
  datatype ReminderData = EmptyArray | Object(entries: ReminderMap)

  /** The `reminders` member of the user-data event: `false`, or an object with `data`. */
  datatype RemindersPayload = NoReminders | Payload(data: ReminderData)

  /** The stored user data: its reminders (None when falsy) and `lastLoaded`. */
  datatype UserData = UserData(reminders: Option<ReminderMap>, lastLoaded: int)

  /** The page's whole reminders state: the global instance (None while undefined) and the stored user data. */
  datatype State = State(instance: Option<ReminderMap>, userData: UserData)

  // ---------------------------------------------------------------------------
  // parseInt on the story key
  // ---------------------------------------------------------------------------

  predicate IsDigit(ch: char) {
    '0' <= ch <= '9'
  }

  /** The longest prefix of `s` made of decimal digits. */
  function DigitPrefix(s: string): (d: string)
    ensures |d| <= |s| && d == s[..|d|]
    ensures forall i :: 0 <= i < |d| ==> IsDigit(d[i])
    ensures |d| < |s| ==> !IsDigit(s[|d|])
  {
    if s == [] || !IsDigit(s[0]) then [] else [s[0]] + DigitPrefix(s[1..])
  }

  /** The value of a string of decimal digits. */
  function DigitsValue(d: string): nat
    requires forall i :: 0 <= i < |d| ==> IsDigit(d[i])
  {
    if d == [] then 0
    else
      assert IsDigit(d[|d| - 1]);
      DigitsValue(d[..|d| - 1]) * 10 + (d[|d| - 1] as int - '0' as int)
  }

  /** JavaScript's parseInt with no radix, on an optional sign and a run of decimal digits; None stands for NaN. */
  function ParseInt(s: string): Option<int> {
    var negative := |s| > 0 && s[0] == '-';
    var rest := if |s| > 0 && (s[0] == '-' || s[0] == '+') then s[1..] else s;
    var digits := DigitPrefix(rest);
    if digits == [] then None
    else Some(if negative then -(DigitsValue(digits) as int) else DigitsValue(digits))
  }

  /** The decimal notation of a story id, as the page writes it into `data-story-id`. */
  function DecimalString(n: nat): (s: string)
    ensures |s| > 0
    ensures forall i :: 0 <= i < |s| ==> IsDigit(s[i])
  {
    if n < 10 then [('0' as int + n) as char]
    else DecimalString(n / 10) + [('0' as int + n % 10) as char]
  }

  lemma {:induction false} DigitsValueOfDecimalString(n: nat)
    ensures DigitsValue(DecimalString(n)) == n
  {
    var s := DecimalString(n);
    if n >= 10 {
      DigitsValueOfDecimalString(n / 10);
      assert s[..|s| - 1] == DecimalString(n / 10);
    }
  }

  lemma {:induction false} DigitPrefixOfDigits(s: string)
    requires forall i :: 0 <= i < |s| ==> IsDigit(s[i])
    ensures DigitPrefix(s) == s
  {
    if s != [] {
      DigitPrefixOfDigits(s[1..]);
    }
  }

  /** parseInt reads back the story id from its decimal notation, whatever follows a non-digit. */
  lemma ParseIntDecimalString(n: nat, tail: string)
    requires tail == [] || !IsDigit(tail[0])
    ensures ParseInt(DecimalString(n) + tail) == Some(n)
  {
    var s := DecimalString(n);
    DigitsValueOfDecimalString(n);
    DigitPrefixOfDigits(s);
    var d := DigitPrefix(s + tail);
    assert (s + tail)[..|s|] == s;
    assert forall i :: 0 <= i < |s| ==> IsDigit((s + tail)[i]);
    DigitPrefixIsMaximal(s + tail, |s|);
    assert d == s;
  }

  /** Any all-digit prefix that is followed by a non-digit (or the end) is the digit prefix. */
  lemma {:induction false} DigitPrefixIsMaximal(s: string, k: nat)
    requires k <= |s|
    requires forall i :: 0 <= i < k ==> IsDigit(s[i])
    requires k == |s| || !IsDigit(s[k])
    ensures DigitPrefix(s) == s[..k]
  {
    if k > 0 {
      DigitPrefixIsMaximal(s[1..], k - 1);
      assert s[..k] == [s[0]] + s[1..][..k - 1];
    }
  }

  // ---------------------------------------------------------------------------
  // Specification of the two operations
  // ---------------------------------------------------------------------------

  /** The data of a reminders payload, with an empty array turned into an empty dictionary. */
  function Normalize(data: ReminderData): ReminderMap {
    match data
    case EmptyArray => map[]
    case Object(entries) => entries
  }

  /** fcn_initializeReminders: `false` leaves the state alone; otherwise the normalised data becomes the instance. */
  function Initialized(s: State, payload: RemindersPayload): (r: State)
    ensures payload.NoReminders? ==> r == s
    ensures payload == Payload(EmptyArray) ==> r.instance == Some(map[])
    ensures payload.Payload? && payload.data.Object? ==> r.instance == Some(payload.data.entries)
    ensures r.userData == s.userData
  {
    match payload
    case NoReminders => s
    case Payload(data) => s.(instance := Some(Normalize(data)))
  }

  /** The instance and the stored reminders disagree on `key`. */
  predicate Diverged(local: ReminderMap, stored: ReminderMap, key: StoryKey) {
    Lookup(local, key) != Lookup(stored, key)
  }

  /**
   * fcn_toggleReminder. With the instance or the stored reminders missing
   * nothing happens; if the two disagree on `key`, the instance is replaced
   * by the stored reminders; otherwise `key` is removed if present and added
   * with the current time if absent, the stored reminders take the new entry
   * and `lastLoaded` is reset to 0. No other key changes on this path.
   */
  function Toggled(s: State, key: StoryKey, now: int): (r: State)
    ensures s.instance.None? || s.userData.reminders.None? ==> r == s
    ensures s.instance.Some? && s.userData.reminders.Some? ==>
              && r.instance.Some? && r.userData.reminders.Some?
              && Lookup(r.instance.value, key) == Lookup(r.userData.reminders.value, key)
    ensures s.instance.Some? && s.userData.reminders.Some? && Diverged(s.instance.value, s.userData.reminders.value, key) ==>
              r == State(s.userData.reminders, s.userData)
    ensures s.instance.Some? && s.userData.reminders.Some? && !Diverged(s.instance.value, s.userData.reminders.value, key) ==>
              && (key in r.instance.value <==> key !in s.instance.value)
              && (key !in s.instance.value ==> r.instance.value[key] == Reminder(ParseInt(key), now))
              && r.userData.lastLoaded == 0
              && (forall k :: k != key ==> Lookup(r.instance.value, k) == Lookup(s.instance.value, k))
              && (forall k :: k != key ==> Lookup(r.userData.reminders.value, k) == Lookup(s.userData.reminders.value, k))
  {
    if s.instance.None? || s.userData.reminders.None? then s
    else
      var local := s.instance.value;
      var stored := s.userData.reminders.value;
      if Diverged(local, stored, key) then State(s.userData.reminders, s.userData)
      else
        var local' := if key in local then local - {key} else local[key := Reminder(ParseInt(key), now)];
        var stored' := if key in local' then stored[key := local'[key]] else stored - {key};
        State(Some(local'), UserData(Some(stored'), 0))
  }

  /**
   * Toggling the same story twice restores whether it has a reminder; when it
   * had none, both the instance and the stored reminders are back as they were.
   */
  lemma ToggleTwiceRestores(s: State, key: StoryKey, now1: int, now2: int)
    requires s.instance.Some? && s.userData.reminders.Some?
    requires !Diverged(s.instance.value, s.userData.reminders.value, key)
    ensures var r := Toggled(Toggled(s, key, now1), key, now2);
            && (key in r.instance.value <==> key in s.instance.value)
            && (key !in s.instance.value ==> r.instance == s.instance && r.userData.reminders == s.userData.reminders)
  {
    var r1 := Toggled(s, key, now1);
    var r := Toggled(r1, key, now2);
    assert !Diverged(r1.instance.value, r1.userData.reminders.value, key);
    if key !in s.instance.value {
      assert key !in s.userData.reminders.value;
      MapsEqualByLookup(r.instance.value, s.instance.value);
      MapsEqualByLookup(r.userData.reminders.value, s.userData.reminders.value);
    }
  }

  /** Two maps that look the same at every key are equal. */
  lemma MapsEqualByLookup(a: ReminderMap, b: ReminderMap)
    requires forall k :: Lookup(a, k) == Lookup(b, k)
    ensures a == b
  {
    assert forall k :: k in a <==> Lookup(a, k).Some?;
    assert a.Keys == b.Keys;
  }

  // ---------------------------------------------------------------------------
  // The page's state, updated in place
  // ---------------------------------------------------------------------------

  class ReminderState {
    /** The global `fcn_reminders` instance's `data`; None while undefined. */
    var instance: Option<ReminderMap>
    /** The user data that fcn_getUserData reads and fcn_setUserData writes. */
    var userData: UserData

    function AsState(): State
      reads this
    {
      State(instance, userData)
    }

    constructor (stored: UserData)
      ensures instance == None && userData == stored
    {
      instance := None;
      userData := stored;
    }

    /** Handles the user-data-ready event. */
    method Initialize(payload: RemindersPayload)
      modifies this
      ensures AsState() == Initialized(old(AsState()), payload)
    {
      if payload.NoReminders? {
        return;
      }
      var data := payload.data;
      if data.EmptyArray? {
        data := Object(map[]);
      }
      instance := Some(data.entries);
    }

    /** Handles a click on a "read later" button for `key` at time `now`. */
    method Toggle(key: StoryKey, now: int)
      modifies this
      ensures AsState() == Toggled(old(AsState()), key, now)
    {
      var currentUserData := userData;
      if instance.None? || currentUserData.reminders.None? {
        return;
      }
      if Lookup(instance.value, key) != Lookup(currentUserData.reminders.value, key) {
        instance := currentUserData.reminders;
        return;
      }
      var data := instance.value;
      if key in data {
        data := data - {key};
      } else {
        data := data[key := Reminder(ParseInt(key), now)];
      }
      instance := Some(data);
      var stored := currentUserData.reminders.value;
      if key in data {
        stored := stored[key := data[key]];
      } else {
        stored := stored - {key};
      }
      currentUserData := UserData(Some(stored), 0);
      userData := currentUserData;
    }
  }
}
