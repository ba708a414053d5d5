/**
 * Client-side duplicate-submission detection: a form submission is
 * remembered in local storage under a key derived from the normalised
 * e-mail address, and a second submission within 24 hours counts as a
 * duplicate. The clock is a parameter (`now`, milliseconds since the epoch).
 */
module DuplicateDetection {
  import opened Wrappers
  import opened Strings

  datatype FormType = Sales | Career

  function FormTypeName(t: FormType): string {
    match t
    case Sales => "sales"
    case Career => "career"
  }

  const WindowHours: nat := 24
  const MillisPerHour: nat := 1000 * 60 * 60
  const KeyPrefix := "pacon_submission_"

  const Two32: int := 0x1_0000_0000
  const Two31: int := 0x8000_0000

  /** JavaScript's ToInt32: the value modulo 2^32, read as a signed 32-bit integer. */
  function ToInt32(x: int): (r: int)
    ensures -Two31 <= r < Two31
    ensures (r - x) % Two32 == 0
  {
    (x + Two31) % Two32 - Two31
  }

  /** Two values that agree modulo 2^32 convert to the same 32-bit integer. */
  lemma ToInt32Congruent(x: int, y: int)
    requires (x - y) % Two32 == 0
    ensures ToInt32(x) == ToInt32(y)
  {
    var k := (x - y) / Two32;
    assert x == y + k * Two32;
    assert (y + Two31 + k * Two32) % Two32 == (y + Two31) % Two32 by {
      ModShift(y + Two31, k);
    }
  }

  lemma ModShift(a: int, k: int)
    ensures (a + k * Two32) % Two32 == a % Two32
  {
    var q, r := a / Two32, a % Two32;
    assert a + k * Two32 == (q + k) * Two32 + r;
  }

  /** The hash of a sequence of UTF-16 code units: h := ToInt32(31 * h + unit), from h = 0. */
  function Hash(units: seq<int>): (h: int)
    ensures -Two31 <= h < Two31
  {
    if |units| == 0 then 0 else ToInt32(31 * Hash(units[..|units| - 1]) + units[|units| - 1])
  }

  /** `hashEmail`: the loop shifts and subtracts, and `hash & hash` truncates to 32 bits. */
  method HashEmail(email: string) returns (s: string)
    ensures s == NatToString(if Hash(Utf16(email)) < 0 then -Hash(Utf16(email)) else Hash(Utf16(email)))
  {
    var units := Utf16(email);
    var hash := 0;
    for i := 0 to |units|
      invariant hash == Hash(units[..i])
    {
      var unit := units[i];
      var shifted := ToInt32(hash * 32);
      var next := ToInt32(shifted - hash + unit);
      ToInt32Congruent(shifted - hash + unit, 31 * hash + unit);
      assert units[..i + 1][..i] == units[..i];
      hash := next;
    }
    assert units[..|units|] == units;
    var magnitude := if hash < 0 then -hash else hash;
    s := NatToString(magnitude);
  }

  /** The hash's text: a decimal number without sign, at most 2^31. */
  function HashText(email: string): (s: string)
    ensures |s| > 0 && AllDigits(s)
  {
    var h := Hash(Utf16(email));
    NatToString(if h < 0 then -h else h)
  }

  lemma HashTextBound(email: string)
    ensures JsParseInt(HashText(email), true).Some?
    ensures 0 <= JsParseInt(HashText(email), true).value <= Two31
  {
    var h := Hash(Utf16(email));
    var m: nat := if h < 0 then -h else h;
    ParseIntOfIntToString(m, true);
  }

  /** `email.toLowerCase().trim()`, with ASCII case mapping. */
  function Normalise(email: string): string { JsTrim(AsciiLower(email)) }

  /** `getStorageKey`. */
  function StorageKey(email: string, formType: FormType): string {
    KeyPrefix + FormTypeName(formType) + "_" + HashText(Normalise(email))
  }

  method GetStorageKey(email: string, formType: FormType) returns (key: string)
    ensures key == StorageKey(email, formType)
  {
    var hashed := HashEmail(Normalise(email));
    key := KeyPrefix + FormTypeName(formType) + "_" + hashed;
  }

  lemma {:induction false} AsciiLowerOfSlice(s: string, i: nat, j: nat)
    requires i <= j <= |s| && AsciiLower(s) == s
    ensures AsciiLower(s[i..j]) == s[i..j]
  {
    var t := s[i..j];
    forall k | 0 <= k < |t|
      ensures AsciiLowerChar(t[k]) == t[k]
    {
      assert t[k] == s[i + k];
      assert AsciiLower(s)[i + k] == AsciiLowerChar(s[i + k]);
    }
  }

  /** A trimmed string is a slice of the string it was trimmed from. */
  lemma TrimIsSlice(s: string, ws: char -> bool)
    ensures var start := |s| - |TrimStart(s, ws)|;
      start + |Trim(s, ws)| <= |s| && Trim(s, ws) == s[start..start + |Trim(s, ws)|]
  {
    var t := TrimStart(s, ws);
    var n := TrimEnd(t, ws);
    assert t == s[|s| - |t|..];
    assert n == t[..|n|];
  }

  /** The normal form has no upper-case ASCII letter left. */
  lemma NormalisedIsLower(email: string)
    ensures AsciiLower(Normalise(email)) == Normalise(email)
  {
    var l := AsciiLower(email);
    AsciiLowerIdempotent(email);
    TrimIsSlice(l, IsJsWhitespace);
    var start := |l| - |TrimStart(l, IsJsWhitespace)|;
    AsciiLowerOfSlice(l, start, start + |Normalise(email)|);
  }

  /** Normalising twice is normalising once. */
  lemma NormaliseIdempotent(email: string)
    ensures Normalise(Normalise(email)) == Normalise(email)
  {
    NormalisedIsLower(email);
    TrimIdempotent(AsciiLower(email), IsJsWhitespace);
  }

  /** Addresses that differ only in ASCII case or surrounding whitespace share their key, and every key carries the submission prefix. */
  lemma StorageKeyNormalised(email: string, formType: FormType)
    ensures StorageKey(Normalise(email), formType) == StorageKey(email, formType)
    ensures StartsWith(StorageKey(email, formType), KeyPrefix)
  {
    NormaliseIdempotent(email);
    var k := StorageKey(email, formType);
    assert k[..|KeyPrefix|] == KeyPrefix;
  }

  /** The two form types never share a key. */
  lemma StorageKeysSeparateForms(a: string, b: string)
    ensures StorageKey(a, Sales) != StorageKey(b, Career)
  {
    var ka, kb := StorageKey(a, Sales), StorageKey(b, Career);
    assert ka[|KeyPrefix|] == 's' && kb[|KeyPrefix|] == 'c';
  }

  /**
   * Whether a stored value is an expired timestamp. `parseInt` never
   * throws: text that is not a number gives NaN, and a NaN age is never
   * more than 24 hours.
   */
  predicate Expired(stored: string, now: int) {
    var t := JsParseInt(stored, true);
    t.Some? && now - t.value > WindowHours * MillisPerHour
  }

  /** Local storage, as far as the submission records go. */
  class SubmissionStore {
    var items: map<string, string>

    constructor (items: map<string, string>)
      ensures this.items == items
    {
      this.items := items;
    }

    /** What `isDuplicateSubmission` answers for the stored items. */
    static function IsDuplicate(items: map<string, string>, key: string, now: int): bool {
      key in items && items[key] != "" && !Expired(items[key], now)
    }

    /** What storage holds afterwards: an expired record is removed. */
    static function AfterCheck(items: map<string, string>, key: string, now: int): map<string, string> {
      if key in items && items[key] != "" && Expired(items[key], now) then items - {key} else items
    }

    method IsDuplicateSubmission(email: string, formType: FormType, now: int) returns (duplicate: bool)
      modifies this
      ensures duplicate == IsDuplicate(old(items), StorageKey(email, formType), now)
      ensures items == AfterCheck(old(items), StorageKey(email, formType), now)
    {
      var key := GetStorageKey(email, formType);
      var stored := if key in items then items[key] else "";
      if stored == "" {
        return false;
      }
      var timestamp := JsParseInt(stored, true);
      if timestamp.Some? && now - timestamp.value > WindowHours * MillisPerHour {
        items := items - {key};
        return false;
      }
      return true;
    }

    method RecordSubmission(email: string, formType: FormType, now: int)
      modifies this
      ensures items == old(items)[StorageKey(email, formType) := IntToString(now)]
    {
      var key := GetStorageKey(email, formType);
      items := items[key := IntToString(now)];
    }

    /** What `cleanupOldSubmissions` leaves: every key except the expired submission records. */
    static function CleanedUp(items: map<string, string>, now: int): map<string, string> {
      map k | k in items && !(StartsWith(k, KeyPrefix) && items[k] != "" && Expired(items[k], now)) :: items[k]
    }

    method CleanupOldSubmissions(now: int)
      modifies this
      ensures items == CleanedUp(old(items), now)
    {
      var pending := items.Keys;
      ghost var original := items;
      while pending != {}
        invariant pending <= original.Keys
        invariant forall k :: k in items <==> k in original && (k in pending || k in CleanedUp(original, now))
        invariant forall k :: k in items ==> items[k] == original[k]
        decreases pending
      {
        var key :| key in pending;
        if StartsWith(key, KeyPrefix) {
          var stored := items[key];
          if stored != "" {
            var timestamp := JsParseInt(stored, true);
            if timestamp.Some? && now - timestamp.value > WindowHours * MillisPerHour {
              items := items - {key};
            }
          }
        }
        pending := pending - {key};
      }
    }
  }

  /** A submission recorded at `at` is a duplicate for the next 24 hours and no longer afterwards. */
  lemma RecordThenCheck(items: map<string, string>, email: string, formType: FormType, at: int, now: int)
    ensures var key := StorageKey(email, formType);
      var recorded := items[key := IntToString(at)];
      (SubmissionStore.IsDuplicate(recorded, key, now) <==> now - at <= WindowHours * MillisPerHour)
      && (now - at > WindowHours * MillisPerHour ==> SubmissionStore.AfterCheck(recorded, key, now) == items - {key})
  {
    ParseIntOfIntToString(at, true);
  }

  /** A stored value that is not a number counts as a duplicate for ever, and stays in storage. */
  lemma UnparsableStoredStays(items: map<string, string>, key: string, now: int)
    requires key in items && items[key] != "" && JsParseInt(items[key], true).None?
    ensures SubmissionStore.IsDuplicate(items, key, now)
    ensures SubmissionStore.AfterCheck(items, key, now) == items
    ensures key in SubmissionStore.CleanedUp(items, now)
  {
  }

  /** Cleaning up keeps every other entry, keeps each record still inside the window, and a second clean-up changes nothing. */
  lemma CleanupKeeps(items: map<string, string>, now: int, key: string)
    requires key in items
    ensures !StartsWith(key, KeyPrefix) ==> key in SubmissionStore.CleanedUp(items, now)
    ensures SubmissionStore.IsDuplicate(items, key, now) ==> key in SubmissionStore.CleanedUp(items, now)
    ensures SubmissionStore.CleanedUp(SubmissionStore.CleanedUp(items, now), now) == SubmissionStore.CleanedUp(items, now)
  {
  }

  /** `getDuplicateMessage`. */
  function DuplicateMessage(formType: FormType): string {
    match formType
    case Sales => "Ihre Anfrage wurde bereits registriert. Wir melden uns binnen 1 Werktag."
    case Career => "Ihre Bewerbung wurde bereits registriert. Wir melden uns innerhalb von 5 Werktagen."
  }

  /** The two forms tell the visitor different things: an enquiry for sales, an application for careers. */
  lemma {:induction false} DuplicateMessagesDistinct()
    ensures DuplicateMessage(Sales) != DuplicateMessage(Career)
  {
    assert |DuplicateMessage(Sales)| == 72;
    assert |DuplicateMessage(Career)| == 83;
  }
}
