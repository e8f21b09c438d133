// Game identifiers: a timestamp, the host name and a random four-digit
// suffix. The random bytes and the host-name lookup are parameters.

module IdGeneration {
  import opened Wrappers

  newtype Byte = x: int | 0 <= x < 256

  /** The digit table the random bytes index: '1' .. '9', then '0'. */
  const Table: seq<Byte> := [49, 50, 51, 52, 53, 54, 55, 56, 57, 48]

  /** The character a random byte becomes. */
  function DigitFor(x: Byte): (c: char)
    ensures '0' <= c <= '9'
    ensures (c as int - '0' as int) == (x as int + 1) % 10
  {
    Table[x % 10] as int as char
  }

  /** Bytes ending in 0 become '1' and bytes ending in 9 become '0'. */
  lemma DigitForEnds(x: Byte)
    ensures x % 10 == 0 ==> DigitFor(x) == '1'
    ensures x % 10 == 9 ==> DigitFor(x) == '0'
    ensures DigitFor(x) == DigitFor(x % 10)
  {
  }

  predicate AllDigits(s: string)
  {
    forall i :: 0 <= i < |s| ==> '0' <= s[i] <= '9'
  }

  /**
   * `generateRandomString`: reads `max` bytes from the random source and
   * overwrites each with its table digit. `random` is what the source
   * yields; fewer than `max` bytes is the panic, `None`.
   */
  method GenerateRandomString(max: nat, random: seq<Byte>) returns (r: Option<string>)
    ensures r.None? <==> |random| < max
    ensures r.Some? ==> |r.value| == max && AllDigits(r.value)
    ensures r.Some? ==> forall i :: 0 <= i < max ==> r.value[i] == DigitFor(random[i])
  {
    if |random| < max {
      return None;
    }
    var b := new Byte[max](i requires 0 <= i < max reads {} => random[i]);
    var i := 0;
    while i < b.Length
      invariant 0 <= i <= b.Length
      invariant forall j :: 0 <= j < i ==> b[j] == Table[random[j] % 10]
      invariant forall j :: i <= j < b.Length ==> b[j] == random[j]
    {
      b[i] := Table[b[i] % 10];
      i := i + 1;
    }
    var s := seq(max, j requires 0 <= j < max reads b => b[j] as int as char);
    return Some(s);
  }

  /** The host name: the system's, or "host" when the lookup fails. */
  function HostName(lookup: Option<string>): (h: string)
    ensures lookup.Some? ==> h == lookup.value
    ensures lookup.None? ==> h == "host"
  {
    match lookup
    case Some(name) => name
    case None => "host"
  }

  /** A number written with at least `width` digits, zero-padded on the left. */
  function Pad(n: nat, width: nat): (s: string)
    ensures |s| >= width && AllDigits(s)
    ensures n < Pow10(width) ==> |s| == width
  {
    if width == 0 && n == 0 then ""
    else
      var rest := Pad(n / 10, if width == 0 then 0 else width - 1);
      rest + [('0' as int + n % 10) as char]
  }

  function Pow10(k: nat): nat
  {
    if k == 0 then 1 else 10 * Pow10(k - 1)
  }

  /** The value of a string of decimal digits. */
  function DigitsValue(s: string): nat
    requires AllDigits(s)
  {
    if s == [] then 0 else 10 * DigitsValue(s[..|s| - 1]) + (s[|s| - 1] as int - '0' as int)
  }

  /** Padding keeps the number's value: it can be read back. */
  lemma {:induction false} PadValue(n: nat, width: nat)
    ensures DigitsValue(Pad(n, width)) == n
  {
    if !(width == 0 && n == 0) {
      var rest := Pad(n / 10, if width == 0 then 0 else width - 1);
      PadValue(n / 10, if width == 0 then 0 else width - 1);
      var s := rest + [('0' as int + n % 10) as char];
      assert s[..|s| - 1] == rest;
    }
  }

  /** A wall-clock time, as `time.Time` exposes its fields. */
  datatype Timestamp = Timestamp(year: nat, month: nat, day: nat, hour: nat, minute: nat, second: nat)

  predicate ValidTimestamp(t: Timestamp)
  {
    t.year <= 9999 && 1 <= t.month <= 12 && 1 <= t.day <= 31
    && t.hour < 24 && t.minute < 60 && t.second < 60
  }

  /** The layout "20060102_150405": date, an underscore, time of day. */
  function FormatTimestamp(t: Timestamp): (s: string)
    requires ValidTimestamp(t)
    ensures |s| == 15 && s[8] == '_'
    ensures AllDigits(s[..8]) && AllDigits(s[9..])
  {
    PowersUsed();
    var date := Pad(t.year, 4) + Pad(t.month, 2) + Pad(t.day, 2);
    var time := Pad(t.hour, 2) + Pad(t.minute, 2) + Pad(t.second, 2);
    assert date + "_" + time == date + ['_'] + time;
    assert (date + "_" + time)[..8] == date;
    assert (date + "_" + time)[9..] == time;
    date + "_" + time
  }

  lemma PowersUsed()
    ensures Pow10(2) == 100 && Pow10(4) == 10000
  {
    assert Pow10(1) == 10;
    assert Pow10(3) == 1000;
  }

  /**
   * `CreateGameID`: the formatted time, the host name and a four-digit
   * random suffix joined by underscores; `None` when the random source runs
   * short (the panic).
   */
  method CreateGameID(now: Timestamp, lookup: Option<string>, random: seq<Byte>) returns (id: Option<string>)
    requires ValidTimestamp(now)
    ensures id.None? <==> |random| < 4
    ensures id.Some? ==> |id.value| == 15 + 1 + |HostName(lookup)| + 1 + 4
    ensures id.Some? ==> id.value[..15] == FormatTimestamp(now)
    ensures id.Some? ==> id.value[16..16 + |HostName(lookup)|] == HostName(lookup)
    ensures id.Some? ==> id.value[15] == '_' && id.value[16 + |HostName(lookup)|] == '_'
    ensures id.Some? ==> AllDigits(id.value[|id.value| - 4..])
    ensures id.Some? ==> forall i :: 0 <= i < 4 ==> id.value[|id.value| - 4 + i] == DigitFor(random[i])
  {
    var hostname := HostName(lookup);
    var uniqueID := GenerateRandomString(4, random);
    if uniqueID.None? {
      return None;
    }
    var stamp := FormatTimestamp(now);
    var s := stamp + "_" + hostname + "_" + uniqueID.value;
    assert s[..15] == stamp;
    assert s[16..16 + |hostname|] == hostname;
    assert s[|s| - 4..] == uniqueID.value;
    return Some(s);
  }
}
