/** The popup's input guards: what the Start and Run Now buttons and an interval edit write to
    storage and send to the background worker, given the field values. The URL field is read
    through `trim()`; the interval field arrives already parsed (None for NaN). */
module PopupGuards {
  import opened Types
  import Background

  /** The characters `String.prototype.trim` removes: ECMAScript WhiteSpace and LineTerminator. */
  predicate IsWhitespace(c: char)
  {
    var n := c as int;
    n == 0x09 || n == 0x0A || n == 0x0B || n == 0x0C || n == 0x0D || n == 0x20 || n == 0xA0
    || n == 0x1680 || (0x2000 <= n <= 0x200A) || n == 0x2028 || n == 0x2029 || n == 0x202F
    || n == 0x205F || n == 0x3000 || n == 0xFEFF
  }

  /** Nothing but whitespace: what `trim()` turns into the empty (falsy) string. */
  predicate Blank(s: string)
  {
    forall k :: 0 <= k < |s| ==> IsWhitespace(s[k])
  }

  /** The length of the run of whitespace `s` starts with. */
  function LeadingSpace(s: string): (n: nat)
    ensures n <= |s|
    ensures forall k :: 0 <= k < n ==> IsWhitespace(s[k])
    ensures n < |s| ==> !IsWhitespace(s[n])
  {
    if s == [] || !IsWhitespace(s[0]) then 0 else 1 + LeadingSpace(s[1..])
  }

  /** The length of the run of whitespace `s` ends with. */
  function TrailingSpace(s: string): (n: nat)
    ensures n <= |s|
    ensures forall k :: |s| - n <= k < |s| ==> IsWhitespace(s[k])
    ensures n < |s| ==> !IsWhitespace(s[|s| - 1 - n])
  {
    if s == [] || !IsWhitespace(s[|s| - 1]) then 0 else 1 + TrailingSpace(s[..|s| - 1])
  }

  /** `s.trim()`: the middle of `s`, with only whitespace cut on either side, and neither
      starting nor ending with whitespace. It is empty exactly when `s` is blank. */
  function Trim(s: string): (r: string)
    ensures LeadingSpace(s) + |r| <= |s| && r == s[LeadingSpace(s)..LeadingSpace(s) + |r|]
    ensures forall k :: LeadingSpace(s) + |r| <= k < |s| ==> IsWhitespace(s[k])
    ensures r != [] ==> !IsWhitespace(r[0]) && !IsWhitespace(r[|r| - 1])
    ensures r == [] <==> Blank(s)
  {
    var t := s[LeadingSpace(s)..];
    t[..|t| - TrailingSpace(t)]
  }

  /** Trimming twice is trimming once. */
  lemma TrimIdempotent(s: string)
    ensures Trim(Trim(s)) == Trim(s)
  {
    var r := Trim(s);
    if r != [] {
      assert LeadingSpace(r) == 0;
      assert TrailingSpace(r) == 0;
      assert r[0..] == r && r[..|r|] == r;
    }
  }

  /** What a click or an edit does beyond the page itself: a storage write of the given keys
      (None: key not written) or a message to the worker, in the order issued. */
  datatype Effect = Persist(targetUrl: Option<string>, intervalSeconds: Option<int>) | Send(message: Message)

  /** The Start button: nothing is written or sent for a blank URL or an interval that is
      missing, 0 or below 10; otherwise the trimmed URL and the interval are persisted, then
      `start` is sent with that interval. */
  function OnStartClick(urlValue: string, interval: Option<int>): (effects: seq<Effect>)
    ensures effects == [] <==> Blank(urlValue) || interval == None || interval.value < 10
    ensures effects != [] ==>
      && interval.Some? && interval.value >= 10
      && effects == [Persist(Some(Trim(urlValue)), interval), Send(Start(interval.value))]
      && Trim(urlValue) != [] && !IsWhitespace(Trim(urlValue)[0])
  {
    var url := Trim(urlValue);
    if url == [] then []
    else if interval == None || interval.value == 0 || interval.value < 10 then []
    else [Persist(Some(url), interval), Send(Start(interval.value))]
  }

  /** An interval edit persists the parsed value only when it is at least 10, and writes no
      other key. */
  function OnIntervalChange(parsed: Option<int>): (effects: seq<Effect>)
    ensures effects != [] <==> parsed.Some? && parsed.value >= 10
    ensures forall i :: 0 <= i < |effects| ==>
      effects[i].Persist? && effects[i].targetUrl == None && effects[i].intervalSeconds == parsed
  {
    match parsed
    case None => []
    case Some(val) => if val >= 10 then [Persist(None, Some(val))] else []
  }

  /** The Run Now button: nothing for a blank URL; otherwise the trimmed URL is persisted and
      `runNow` is sent. */
  function OnRunNowClick(urlValue: string): (effects: seq<Effect>)
    ensures effects == [] <==> Blank(urlValue)
    ensures effects != [] ==> effects == [Persist(Some(Trim(urlValue)), None), Send(RunNow)]
  {
    var url := Trim(urlValue);
    if url == [] then [] else [Persist(Some(url), None), Send(RunNow)]
  }

  /** A `start` the popup sends carries an interval of at least 10 s; up to 2147483 s the worker
      then arms its timer at least ten seconds out. */
  lemma StartFromPopupArmsTenSeconds(urlValue: string, interval: Option<int>, i: nat)
    requires i < |OnStartClick(urlValue, interval)|
    requires OnStartClick(urlValue, interval)[i].Send?
    ensures OnStartClick(urlValue, interval)[i].message.Start?
    ensures OnStartClick(urlValue, interval)[i].message.intervalSeconds >= 10
    ensures OnStartClick(urlValue, interval)[i].message.intervalSeconds <= 2147483 ==>
      Background.DelayMs(Some(OnStartClick(urlValue, interval)[i].message.intervalSeconds)) >= 10000
  {
  }

  /** The popup sets no upper bound: an interval of 2147484 s passes its guard, and the delay it
      makes the worker arm wraps to 0. */
  lemma PopupAcceptsWrappingInterval()
    ensures OnStartClick("x", Some(2147484)) == [Persist(Some("x"), Some(2147484)), Send(Start(2147484))]
    ensures Background.DelayMs(Some(2147484)) == 0
  {
    assert !IsWhitespace("x"[0]);
    assert LeadingSpace("x") == 0 && TrailingSpace("x") == 0;
    assert Trim("x") == "x"[0..][..1] == "x";
    Background.HugeIntervalFiresAtOnce();
  }
}
