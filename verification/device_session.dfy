/** Device-based identity for riders who have not signed in: a permanent
    device id and a session record with a 30-day lifetime, kept in two
    slots of the browser's local storage. */
module DeviceSession {
  import opened Wrappers
  import opened Text
  import Time

  const DeviceIdLength: nat := 32

  /** Sessions whose timestamp is more than this far in the past are purged. */
  const SessionLifetimeMs: int := 30 * Time.DayMs

  /** A field of a JSON object as it comes back from `JSON.parse`. */
  datatype Value = Str(s: string) | Num(n: int) | Bool(b: bool) | Null

  /** A session object: field name to value. */
  type Record = map<string, Value>

  /** What the session slot holds: nothing, text that does not parse as a
      JSON object, or a parsed object. */
  datatype Slot = Absent | Corrupt | Stored(record: Record)

  /** The post-processing in `generateDeviceId`: of the encoded fingerprint
      (timestamp, random token, user agent and screen size, base64 encoded)
      keep the characters in [A-Za-z0-9] and of those the first 32. */
  function GenerateDeviceId(encoded: string): (id: string)
    ensures AllAlnum(id) && |id| <= DeviceIdLength
    ensures |id| == Min(DeviceIdLength, |KeepAlnum(encoded)|)
    ensures StartsWith(KeepAlnum(encoded), id)
  {
    var kept := KeepAlnum(encoded);
    kept[..Min(DeviceIdLength, |kept|)]
  }

  /** An encoding that is already at most 32 alphanumerics is used as it is. */
  lemma GenerateKeepsShortAlnum(encoded: string)
    requires AllAlnum(encoded) && |encoded| <= DeviceIdLength
    ensures GenerateDeviceId(encoded) == encoded
  {
  }

  /** `{ ...data, deviceId, timestamp }`: the spread comes first, so the two
      stamped fields win over same-named fields of `data`. */
  function Stamp(data: Record, deviceId: string, now: int): (r: Record)
    ensures r.Keys == data.Keys + {"deviceId", "timestamp"}
    ensures r["deviceId"] == Str(deviceId) && r["timestamp"] == Num(now)
    ensures forall k :: k in data && k != "deviceId" && k != "timestamp" ==> r[k] == data[k]
  {
    data + map["deviceId" := Str(deviceId), "timestamp" := Num(now)]
  }

  /** The value of a decimal numeral. */
  function Numeral(s: string): nat
    requires AllDigits(s)
  {
    if s == [] then 0 else 10 * Numeral(s[..|s| - 1]) + (s[|s| - 1] as int - '0' as int)
  }

  /** The number a field becomes when `<` compares it with a number, or
      None for `NaN` (which compares false with everything). A string is
      converted by `Number(...)`: the empty string is 0 and a decimal
      numeral is its value; `true`, `false` and `null` are 1, 0 and 0. */
  function AsNumber(v: Value): (r: Option<int>)
    ensures v.Num? ==> r == Some(v.n)
    ensures v.Str? && AllDigits(v.s) ==> r == Some(Numeral(v.s))
    ensures v.Str? && !AllDigits(v.s) ==> r == None
    ensures v == Null || v == Bool(false) || v == Str("") ==> r == Some(0)
  {
    match v
    case Num(n) => Some(n)
    case Str(s) => if AllDigits(s) then Some(Numeral(s)) else None
    case Bool(b) => Some(if b then 1 else 0)
    case Null => Some(0)
  }

  /** `parsed.timestamp < thirtyDaysAgo`. A missing timestamp compares as
      `undefined < n` and text that is not a number as `NaN < n`, both
      false, so such a record never expires; a numeral string, `null` or a
      boolean is compared as the number it converts to. */
  predicate Expired(r: Record, now: int)
  {
    "timestamp" in r && AsNumber(r["timestamp"]).Some? && AsNumber(r["timestamp"]).value < now - SessionLifetimeMs
  }

  /** A timestamp stored as the text "0", or as `null`, reads as the epoch:
      such a record is purged as soon as 30 days have passed since then,
      while one stored as "soon" never is. */
  lemma TimestampCoercion(data: Record, now: int)
    ensures Expired(data["timestamp" := Str("0")], now) <==> 0 < now - SessionLifetimeMs
    ensures Expired(data["timestamp" := Null], now) <==> 0 < now - SessionLifetimeMs
    ensures !Expired(data["timestamp" := Str("soon")], now)
  {
    assert Numeral("0") == 0 by {
      assert "0"[..0] == [];
    }
    assert !IsDigit("soon"[0]);
  }

  /** A freshly stamped record expires exactly when it is more than 30 days
      old: one exactly 30 days old is still valid. */
  lemma StampExpiry(data: Record, deviceId: string, written: int, now: int)
    ensures Expired(Stamp(data, deviceId, written), now) <==> written < now - SessionLifetimeMs
    ensures !Expired(Stamp(data, deviceId, now - SessionLifetimeMs), now)
  {
  }

  /** `/^\d{10}$/.test(mobile)`: a valid mobile number is one that digit
      sanitising leaves intact and that has ten characters. */
  predicate IsValidMobile(mobile: string): (ok: bool)
    ensures ok <==> |mobile| == 10 && KeepDigits(mobile) == mobile
  {
    |mobile| == 10 && AllDigits(mobile)
  }

  /** Anything that starts with a '+' or a letter is refused. */
  lemma ValidMobileRefusesPrefix(mobile: string)
    ensures |mobile| > 0 && !IsDigit(mobile[0]) ==> !IsValidMobile(mobile)
  {
  }

  /** The two storage slots of one browser profile. */
  class Storage {
    var deviceIdSlot: Option<string>
    var sessionSlot: Slot

    constructor (deviceId: Option<string>, session: Slot)
      ensures deviceIdSlot == deviceId && sessionSlot == session
    {
      deviceIdSlot := deviceId;
      sessionSlot := session;
    }

    /** `if (!deviceId)`: an absent or empty id counts as no id. */
    predicate HasDeviceId()
      reads this
    {
      deviceIdSlot.Some? && deviceIdSlot.value != ""
    }

    /** `getDeviceId`: return the stored id; only when there is none,
        generate one from `encoded` and store it. */
    method GetDeviceId(encoded: string) returns (id: string)
      modifies this`deviceIdSlot
      ensures old(HasDeviceId()) ==> id == old(deviceIdSlot).value && deviceIdSlot == old(deviceIdSlot)
      ensures !old(HasDeviceId()) ==> id == GenerateDeviceId(encoded) && deviceIdSlot == Some(id)
    {
      if HasDeviceId() {
        id := deviceIdSlot.value;
      } else {
        id := GenerateDeviceId(encoded);
        deviceIdSlot := Some(id);
      }
    }

    /** `setSession`: overwrite the session slot with `data` stamped with
        the device id (created first if needed) and the time of writing. */
    method SetSession(data: Record, encoded: string, now: int)
      modifies this
      ensures deviceIdSlot == (if old(HasDeviceId()) then old(deviceIdSlot) else Some(GenerateDeviceId(encoded)))
      ensures sessionSlot == Stored(Stamp(data, deviceIdSlot.value, now))
    {
      var id := GetDeviceId(encoded);
      sessionSlot := Stored(Stamp(data, id, now));
    }

    /** `getSession`: the stored record unless the slot is absent or corrupt
        (both give null) or the record is expired (purged, then null). */
    method GetSession(now: int) returns (r: Option<Record>)
      modifies this`sessionSlot
      ensures old(sessionSlot).Stored? && !Expired(old(sessionSlot).record, now) ==>
        r == Some(old(sessionSlot).record) && sessionSlot == old(sessionSlot)
      ensures old(sessionSlot).Stored? && Expired(old(sessionSlot).record, now) ==>
        r == None && sessionSlot == Absent
      ensures !old(sessionSlot).Stored? ==> r == None && sessionSlot == old(sessionSlot)
    {
      match sessionSlot
      case Absent =>
        r := None;
      case Corrupt =>
        r := None;
      case Stored(record) =>
        if Expired(record, now) {
          ClearSession();
          r := None;
        } else {
          r := Some(record);
        }
    }

    /** `clearSession`: empty the session slot; the device id stays. */
    method ClearSession()
      modifies this`sessionSlot
      ensures sessionSlot == Absent
    {
      sessionSlot := Absent;
    }

    /** Writing a session and reading it back within 30 days gives the
        record just written, stamped with the device id. */
    method WriteThenRead(data: Record, encoded: string, written: int, now: int) returns (r: Option<Record>)
      requires now - SessionLifetimeMs <= written
      modifies this
      ensures deviceIdSlot.Some?
      ensures r == Some(Stamp(data, deviceIdSlot.value, written))
      ensures sessionSlot == Stored(r.value)
    {
      SetSession(data, encoded, written);
      StampExpiry(data, deviceIdSlot.value, written, now);
      r := GetSession(now);
    }
  }
}
