/**
  * The room id of a connection and the channel-layer group it maps to: chat/consumers.py
  * parses the URL's `room` argument with Python's `int(...)` and names the group
  * `f'{CHAT_ROOM_PREFIX}{room_id}'`, i.e. the prefix followed by `str(room_id)`.
  */
module GroupNames {
  import opened Wrappers

  /**
    * `CHAT_ROOM_PREFIX` from chatapp/constants.py, a file that is not part of this model;
    * no proof depends on the value written here.
    */
  const ChatRoomPrefix: string := "chat_"

  predicate IsDigit(c: char) { '0' <= c <= '9' }

  predicate AllDigits(s: string) { forall i :: 0 <= i < |s| ==> IsDigit(s[i]) }

  function DigitChar(d: nat): (c: char)
    requires d < 10
    ensures IsDigit(c) && c as int - '0' as int == d
  {
    ('0' as int + d) as char
  }

  /** Python `str(n)` for `n >= 0`: decimal digits, no leading zero except for 0 itself. */
  function NatToDecimal(n: nat): (s: string)
    ensures |s| > 0 && AllDigits(s)
    ensures s[0] == '0' ==> n == 0
    decreases n
  {
    if n < 10 then [DigitChar(n)] else NatToDecimal(n / 10) + [DigitChar(n % 10)]
  }

  /** Python `str(n)` for any integer: a `-` sign in front of a negative number. */
  function DecimalString(n: int): (s: string)
    ensures |s| > 0
    ensures n >= 0 ==> AllDigits(s)
    ensures n < 0 ==> s[0] == '-' && AllDigits(s[1..])
  {
    if n < 0 then "-" + NatToDecimal(-n) else NatToDecimal(n)
  }

  /** The number a non-empty run of decimal digits denotes. */
  function DigitsValue(s: string): nat
    requires AllDigits(s)
  {
    if s == [] then 0 else 10 * DigitsValue(s[..|s| - 1]) + (s[|s| - 1] as int - '0' as int)
  }

  /**
    * Python `int(s)` on the URL argument, for the forms this model covers: an optional
    * `+` or `-` followed by ASCII digits. `None` stands for the `ValueError` it raises.
    */
  function ParseRoomId(s: string): (r: Option<int>)
    ensures s == [] ==> r.None?
    ensures s != [] && AllDigits(s) ==> r == Some(DigitsValue(s))
    ensures r.Some? && r.value < 0 ==> s[0] == '-'
    ensures r.Some? <==> (s != [] && AllDigits(s)) || (|s| > 1 && (s[0] == '-' || s[0] == '+') && AllDigits(s[1..]))
    ensures |s| > 1 && s[0] == '-' && AllDigits(s[1..]) ==> r == Some(0 - (DigitsValue(s[1..]) as int))
    ensures |s| > 1 && s[0] == '+' && AllDigits(s[1..]) ==> r == Some(DigitsValue(s[1..]))
  {
    if |s| > 0 && (s[0] == '-' || s[0] == '+') then
      var body := s[1..];
      if body != [] && AllDigits(body) then
        var magnitude: int := DigitsValue(body);
        Some(if s[0] == '-' then -magnitude else magnitude)
      else None
    else if s != [] && AllDigits(s) then Some(DigitsValue(s))
    else None
  }

  /** `f'{CHAT_ROOM_PREFIX}{room_id}'` */
  function GroupName(roomId: int): (g: string)
    ensures |g| > |ChatRoomPrefix| && g[..|ChatRoomPrefix|] == ChatRoomPrefix
  {
    ChatRoomPrefix + DecimalString(roomId)
  }

  /** Reading back the digits that `str` writes gives the number. */
  lemma {:induction false} DigitsRoundTrip(n: nat)
    ensures DigitsValue(NatToDecimal(n)) == n
    decreases n
  {
    if n >= 10 {
      var s := NatToDecimal(n);
      assert s[..|s| - 1] == NatToDecimal(n / 10);
      DigitsRoundTrip(n / 10);
    }
  }

  /** `int(str(n)) == n`: the room id in a group name can be read back. */
  lemma ParseDecimalRoundTrip(n: int)
    ensures ParseRoomId(DecimalString(n)) == Some(n)
  {
    var s := DecimalString(n);
    if n < 0 {
      assert s[1..] == NatToDecimal(-n);
      DigitsRoundTrip(-n);
    } else {
      DigitsRoundTrip(n);
    }
  }

  /** Distinct room ids give distinct group names, and equal ids equal names. */
  lemma GroupNameInjective(a: int, b: int)
    ensures GroupName(a) == GroupName(b) <==> a == b
  {
    if GroupName(a) == GroupName(b) {
      var k := |ChatRoomPrefix|;
      assert GroupName(a)[k..] == DecimalString(a);
      assert GroupName(b)[k..] == DecimalString(b);
      ParseDecimalRoundTrip(a);
      ParseDecimalRoundTrip(b);
    }
  }
}
