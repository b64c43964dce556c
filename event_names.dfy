/**
 * Names of the two named events of the surrogate handshake. Host and
 * surrogate derive them independently from the parent pid alone, so the
 * derivation must be injective in the pid and the two names must differ.
 */
module EventNames {
  import opened Arguments

  const NAME_PREFIX := "PinballY.Dof6432Surrogate."
  const READY_SUFFIX := ".Event.Ready"
  const DONE_SUFFIX := ".Event.Done"

  /** Size of the `char` buffers the names are formatted into, terminator included. */
  const NAME_BUFFER_SIZE: nat := 128

  predicate IsLowerHexDigit(c: char) {
    '0' <= c <= '9' || 'a' <= c <= 'f'
  }

  predicate AllLowerHexDigits(s: string) {
    forall i :: 0 <= i < |s| ==> IsLowerHexDigit(s[i])
  }

  function HexDigit(v: nat): (c: char)
    requires v < 16
    ensures IsLowerHexDigit(c)
  {
    if v < 10 then ('0' as int + v) as char else ('a' as int + v - 10) as char
  }

  function HexDigitValue(c: char): (v: nat)
    requires IsLowerHexDigit(c)
    ensures v < 16
  {
    if c <= '9' then c as int - '0' as int else c as int - 'a' as int + 10
  }

  /** `%lx` of a non-negative value: lower-case hexadecimal, no padding. */
  function Hex(n: nat): (s: string)
    ensures s != [] && AllLowerHexDigits(s)
    decreases n
  {
    if n < 16 then [HexDigit(n)] else Hex(n / 16) + [HexDigit(n % 16)]
  }

  /** The value of a hexadecimal digit string, most significant digit first. */
  function HexValue(s: string): nat
    requires AllLowerHexDigits(s)
    decreases |s|
  {
    if s == [] then 0 else 16 * HexValue(s[..|s| - 1]) + HexDigitValue(s[|s| - 1])
  }

  /** Reading the formatted text back as hexadecimal gives the number. */
  lemma {:induction false} HexRoundTrip(n: nat)
    ensures HexValue(Hex(n)) == n
    decreases n
  {
    var s := Hex(n);
    if n >= 16 {
      HexRoundTrip(n / 16);
      assert s[..|s| - 1] == Hex(n / 16);
    }
  }

  /** Distinct values format to distinct text. */
  lemma HexInjective(m: nat, n: nat)
    requires Hex(m) == Hex(n)
    ensures m == n
  {
    HexRoundTrip(m);
    HexRoundTrip(n);
  }

  /** `%lx` writes no leading zero: the first digit is '0' only for the value 0. */
  lemma {:induction false} HexNoLeadingZero(n: nat)
    ensures Hex(n)[0] == '0' <==> n == 0
    decreases n
  {
    if n >= 16 {
      HexNoLeadingZero(n / 16);
    }
  }

  function Pow16(k: nat): (p: nat)
    ensures p >= 1
  {
    if k == 0 then 1 else 16 * Pow16(k - 1)
  }

  /** A value below 16^k takes at most k hexadecimal digits. */
  lemma {:induction false} HexLength(n: nat, k: nat)
    requires 1 <= k && n < Pow16(k)
    ensures |Hex(n)| <= k
    decreases n
  {
    if n >= 16 {
      assert k >= 2;
      assert n / 16 < Pow16(k - 1);
      HexLength(n / 16, k - 1);
    }
  }

  /** The part both names share: the namespace and the pid in hexadecimal. */
  function ChannelBase(ppid: Long): (s: string)
    ensures |s| <= |NAME_PREFIX| + 8
  {
    assert Pow16(8) == 0x1_0000_0000;
    HexLength(ppid, 8);
    NAME_PREFIX + Hex(ppid)
  }

  /** The "ready" event name; it fits its buffer together with the terminator. */
  function ReadyEventName(ppid: Long): (s: string)
    ensures |s| + 1 <= NAME_BUFFER_SIZE
  {
    ChannelBase(ppid) + READY_SUFFIX
  }

  /** The "done" event name; it fits its buffer together with the terminator. */
  function DoneEventName(ppid: Long): (s: string)
    ensures |s| + 1 <= NAME_BUFFER_SIZE
  {
    ChannelBase(ppid) + DONE_SUFFIX
  }

  /**
   * Both names are the namespace, then the pid in lower-case hexadecimal, then
   * their own suffix: they differ only after the shared base.
   */
  lemma NamesShareBase(ppid: Long)
    ensures ReadyEventName(ppid)[..|NAME_PREFIX|] == NAME_PREFIX
    ensures DoneEventName(ppid)[..|NAME_PREFIX|] == NAME_PREFIX
    ensures ReadyEventName(ppid)[|NAME_PREFIX|..|NAME_PREFIX| + |Hex(ppid)|] == Hex(ppid)
    ensures DoneEventName(ppid)[|NAME_PREFIX|..|NAME_PREFIX| + |Hex(ppid)|] == Hex(ppid)
    ensures AllLowerHexDigits(Hex(ppid))
    ensures ReadyEventName(ppid)[..|ChannelBase(ppid)|] == ChannelBase(ppid)
    ensures DoneEventName(ppid)[..|ChannelBase(ppid)|] == ChannelBase(ppid)
    ensures ReadyEventName(ppid)[|ChannelBase(ppid)|..] == READY_SUFFIX
    ensures DoneEventName(ppid)[|ChannelBase(ppid)|..] == DONE_SUFFIX
  {
  }

  /** No "ready" name equals any "done" name, whatever the two pids. */
  lemma ReadyDoneDistinct(p: Long, q: Long)
    ensures ReadyEventName(p) != DoneEventName(q)
  {
    var r, d := ReadyEventName(p), DoneEventName(q);
    assert r[|r| - 1] == 'y';
    assert d[|d| - 1] == 'e';
  }

  /** The base recovers the pid. */
  lemma ChannelBaseInjective(p: Long, q: Long)
    requires ChannelBase(p) == ChannelBase(q)
    ensures p == q
  {
    var a, b := ChannelBase(p), ChannelBase(q);
    assert a[|NAME_PREFIX|..] == Hex(p);
    assert b[|NAME_PREFIX|..] == Hex(q);
    HexInjective(p, q);
  }

  /** Different parent pids get different "ready" events. */
  lemma ReadyEventNameInjective(p: Long, q: Long)
    requires ReadyEventName(p) == ReadyEventName(q)
    ensures p == q
  {
    var a, b := ReadyEventName(p), ReadyEventName(q);
    assert a[..|a| - |READY_SUFFIX|] == ChannelBase(p);
    assert b[..|b| - |READY_SUFFIX|] == ChannelBase(q);
    ChannelBaseInjective(p, q);
  }

  /** Different parent pids get different "done" events. */
  lemma DoneEventNameInjective(p: Long, q: Long)
    requires DoneEventName(p) == DoneEventName(q)
    ensures p == q
  {
    var a, b := DoneEventName(p), DoneEventName(q);
    assert a[..|a| - |DONE_SUFFIX|] == ChannelBase(p);
    assert b[..|b| - |DONE_SUFFIX|] == ChannelBase(q);
    ChannelBaseInjective(p, q);
  }

  /** Parent pid 4242 (0x1092) names the events `PinballY.Dof6432Surrogate.1092.Event.Ready` and `...Done`. */
  lemma NamesForPid4242()
    ensures ReadyEventName(4242) == "PinballY.Dof6432Surrogate.1092.Event.Ready"
    ensures DoneEventName(4242) == "PinballY.Dof6432Surrogate.1092.Event.Done"
  {
    assert Hex(4242) == "1092" by {
      assert Hex(4242 / 16 / 16 / 16) == "1";
      assert Hex(4242 / 16 / 16) == "10";
      assert Hex(4242 / 16) == "109";
    }
  }
}
