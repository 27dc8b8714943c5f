/**
 The packed dispatch word of a sink: retry deadline in the upper 48 bits, then the status
 byte, then the threshold byte. The bit fields are disjoint, so shifting and or-ing is
 multiplication and addition, modulo 2^64.
 */
module DispatchWord {
  import opened Basics

  datatype Status = Healthy | Degraded | Dead

  datatype Hint = Hint(status: Status, threshold: nat, retryAt: nat)

  function Code(s: Status): nat {
    match s
    case Healthy => 0
    case Degraded => 1
    case Dead => 2
  }

  function FromCode(c: nat): Status {
    if c == 0 then Healthy else if c == 1 then Degraded else Dead
  }

  function Pack(h: Hint): nat {
    (h.retryAt * TWO_16) % TWO_64 + Code(h.status) * 256 + h.threshold
  }

  function Unpack(word: nat): Hint {
    Hint(FromCode((word / 256) % 256), word % 256, word / TWO_16)
  }

  lemma ShiftTruncates(retryAt: nat)
    ensures (retryAt * TWO_16) % TWO_64 == (retryAt % TWO_48) * TWO_16
  {
    var q, r := retryAt / TWO_48, retryAt % TWO_48;
    assert retryAt * TWO_16 == q * TWO_64 + r * TWO_16;
    assert 0 <= r * TWO_16 < TWO_64;
  }

  lemma Fields(retry: nat, code: nat, threshold: nat)
    requires code < 256 && threshold < 256
    ensures var word := retry * TWO_16 + code * 256 + threshold;
            word / TWO_16 == retry && (word / 256) % 256 == code && word % 256 == threshold
  {
    var word := retry * TWO_16 + code * 256 + threshold;
    assert word == 256 * (retry * 256 + code) + threshold;
    assert word / 256 == retry * 256 + code;
  }

  /** The layout: the deadline from bit 16 on, the status in bits 8 to 15 as 0, 1 or 2, the
      threshold in bits 0 to 7; and it is read from there. */
  lemma Layout(h: Hint)
    requires h.threshold < 256 && h.retryAt < TWO_48
    ensures Pack(h) / TWO_16 == h.retryAt && Pack(h) % 256 == h.threshold
    ensures (Pack(h) / 256) % 256 == match h.status { case Healthy => 0 case Degraded => 1 case Dead => 2 }
  {
    ShiftTruncates(h.retryAt);
    Fields(h.retryAt, Code(h.status), h.threshold);
  }

  /** Reading back a packed word gives the status and threshold exactly, and the deadline
      exactly when it fits 48 bits. */
  lemma PackUnpack(h: Hint)
    requires h.threshold < 256
    ensures Unpack(Pack(h)) == h.(retryAt := h.retryAt % TWO_48)
    ensures Unpack(Pack(h)) == h <==> h.retryAt < TWO_48
    ensures Pack(h) < TWO_64
  {
    ShiftTruncates(h.retryAt);
    Fields(h.retryAt % TWO_48, Code(h.status), h.threshold);
  }
}
