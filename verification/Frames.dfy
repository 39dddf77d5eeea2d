/** Reassembly of length-prefixed messages from chunks: `eControlTrans::RecvData` in
    erender/econtroltrans.cpp. */
module Frames {

  import opened Basics

  const HEAD_SIZE := 4

  // ---------------------------------------------------------------------------------------
  // The stream as a whole
  // ---------------------------------------------------------------------------------------

  /** The big-endian length in the first four bytes. */
  function Length(s: seq<Byte>): (n: nat)
    requires |s| >= HEAD_SIZE
    ensures n < 0x1_0000_0000
  {
    ((s[0] as nat * 256 + s[1] as nat) * 256 + s[2] as nat) * 256 + s[3] as nat
  }

  /** The first frame of `s` is there in full. */
  predicate Complete(s: seq<Byte>) {
    |s| >= HEAD_SIZE && |s| >= HEAD_SIZE + Length(s)
  }

  /** What is routed of the first frame: its payload and a zero byte. */
  function First(s: seq<Byte>): seq<Byte>
    requires Complete(s)
  {
    s[HEAD_SIZE..HEAD_SIZE + Length(s)] + [0]
  }

  function AfterFirst(s: seq<Byte>): (r: seq<Byte>)
    requires Complete(s)
    ensures |r| < |s|
  {
    s[HEAD_SIZE + Length(s)..]
  }

  /** Decoding in one go: the messages of all complete frames. */
  function Messages(s: seq<Byte>): seq<seq<Byte>>
    decreases |s|
  {
    if Complete(s) then [First(s)] + Messages(AfterFirst(s)) else []
  }

  /** What is left after them. */
  function Rest(s: seq<Byte>): seq<Byte>
    decreases |s|
  {
    if Complete(s) then Rest(AfterFirst(s)) else s
  }

  /** Decoding may stop anywhere and go on later. */
  lemma {:induction false} Resume(s: seq<Byte>, t: seq<Byte>)
    ensures Messages(s + t) == Messages(s) + Messages(Rest(s) + t)
    ensures Rest(s + t) == Rest(Rest(s) + t)
    decreases |s|
  {
    if Complete(s) {
      assert Length(s + t) == Length(s);
      assert First(s + t) == First(s);
      assert AfterFirst(s + t) == AfterFirst(s) + t;
      Resume(AfterFirst(s), t);
    }
  }

  lemma {:induction false} RestIncomplete(s: seq<Byte>)
    ensures !Complete(Rest(s))
    decreases |s|
  {
    if Complete(s) {
      RestIncomplete(AfterFirst(s));
    }
  }

  lemma NothingComplete(s: seq<Byte>)
    requires !Complete(s)
    ensures Messages(s) == [] && Rest(s) == s
  {
  }

  /** The frame of a payload, as the other side sends it. */
  function Frame(payload: seq<Byte>): seq<Byte>
    requires |payload| < 0x1_0000_0000
  {
    var n := |payload|;
    [n / 0x100_0000, n / 0x1_0000 % 256, n / 256 % 256, n % 256] + payload
  }

  lemma FrameComplete(payload: seq<Byte>)
    requires |payload| < 0x1_0000_0000
    ensures var f := Frame(payload); Complete(f) && First(f) == payload + [0] && AfterFirst(f) == []
  {
    var n := |payload|;
    assert n / 256 == n / 0x1_0000 * 256 + n / 256 % 256;
    assert n / 0x1_0000 == n / 0x100_0000 * 256 + n / 0x1_0000 % 256;
    assert Length(Frame(payload)) == n;
  }

  type Payload = s: seq<Byte> | |s| < 0x1_0000_0000

  function AllFrames(payloads: seq<Payload>): seq<Byte> {
    if payloads == [] then [] else Frame(payloads[0]) + AllFrames(payloads[1..])
  }

  /** Each payload with a zero byte after it. */
  function Terminated(payloads: seq<Payload>): seq<seq<Byte>> {
    seq(|payloads|, i requires 0 <= i < |payloads| => payloads[i] + [0])
  }

  lemma TerminatedStep(payloads: seq<Payload>)
    requires payloads != []
    ensures Terminated(payloads) == [payloads[0] + [0]] + Terminated(payloads[1..])
  {
  }

  /** Decoding the frames of some payloads gives back the payloads and leaves nothing. */
  lemma {:induction false} MessagesOfFrames(payloads: seq<Payload>)
    ensures Messages(AllFrames(payloads)) == Terminated(payloads) && Rest(AllFrames(payloads)) == []
  {
    if payloads != [] {
      hide Frame, Messages, Rest, Terminated;
      TerminatedStep(payloads);
      MessagesOfFrames(payloads[1..]);
      OneFrame(payloads[0]);
      Resume(Frame(payloads[0]), AllFrames(payloads[1..]));
      assert [] + AllFrames(payloads[1..]) == AllFrames(payloads[1..]);
    } else {
      NothingComplete([]);
    }
  }

  lemma OneFrame(payload: Payload)
    ensures Messages(Frame(payload)) == [payload + [0]] && Rest(Frame(payload)) == []
  {
    hide Frame;
    FrameComplete(payload);
    NothingComplete([]);
  }

  // ---------------------------------------------------------------------------------------
  // The receiver
  // ---------------------------------------------------------------------------------------

  /** Conversion of a 32-bit value to `int`. */
  function ToInt(n: int): (i: int)
    ensures -0x8000_0000 <= i < 0x8000_0000
  {
    var u := n % 0x1_0000_0000;
    if u < 0x8000_0000 then u else u - 0x1_0000_0000
  }

  /** The comparison of `size()` with `remain` is between unsigned 64-bit values, so that a negative
      `remain` is above every size below 2^31: it says whether the rest of the body is there. */
  lemma RemainTest(left: nat, size: nat)
    requires left < 0x1_0000_0000 && size < 0x8000_0000
    ensures ToInt(left) >= 0 && size >= ToInt(left) <==> size >= left
    ensures ToInt(left) >= 0 && size >= ToInt(left) ==> ToInt(left) == left
    ensures ToInt(ToInt(left) - size) == ToInt(left - size)
    ensures ToInt(left) == 0 <==> left == 0
  {
  }

  lemma BodyComplete(head: seq<Byte>, package: seq<Byte>, data: seq<Byte>)
    requires |head| == HEAD_SIZE && |package| <= Length(head) <= |package| + |data|
    ensures var n := Length(head) - |package|;
      && Messages(head + package + data) == [package + data[..n] + [0]] + Messages(data[n..])
      && Rest(head + package + data) == Rest(data[n..])
  {
    var n := Length(head) - |package|;
    var all := head + package + data;
    assert Length(all) == Length(head);
    assert First(all) == package + data[..n] + [0];
    assert AfterFirst(all) == data[n..];
  }

  lemma LongBody(head: seq<Byte>, package: seq<Byte>, data: seq<Byte>)
    requires |head| == HEAD_SIZE && |package| < Length(head)
    ensures ToInt(Length(head)) != 0 && Messages(head + package + []) == [] && Rest(head + package + []) == head + package
  {
    BodyIncomplete(head, package, []);
  }

  lemma BodyIncomplete(head: seq<Byte>, package: seq<Byte>, data: seq<Byte>)
    requires |head| == HEAD_SIZE && |package| + |data| < Length(head)
    ensures Messages(head + package + data) == [] && Rest(head + package + data) == head + (package + data)
  {
    hide Length, Messages, Rest;
    var all := head + package + data;
    assert Length(all) == Length(head) by {
      LengthOfStart(head, package + data);
      assert all == head + (package + data);
    }
    NothingComplete(all);
  }

  lemma LengthOfStart(head: seq<Byte>, s: seq<Byte>)
    requires |head| >= HEAD_SIZE
    ensures Length(head + s) == Length(head)
  {
  }

  /** The state between two calls; `routed` is what has been given to `RouteCmd`. */
  class Receiver {
    var len: int
    var remain: int
    var package: seq<Byte>
    var headSize: seq<Byte>
    ghost var head: seq<Byte>
    ghost var routed: seq<seq<Byte>>

    /** The bytes taken in that have not been routed. */
    ghost function Pending(): seq<Byte>
      reads this
    {
      if len == 0 then headSize else head + package
    }

    /** In a body, what is there and what is to come make up the length of the header. */
    ghost predicate Valid()
      reads this
    {
      if len == 0 then |headSize| < HEAD_SIZE
      else
        && headSize == [] && |head| == HEAD_SIZE && len == ToInt(Length(head))
        && |package| < Length(head) && remain == ToInt(Length(head) - |package|)
    }

    constructor ()
      ensures Valid() && Pending() == [] && routed == []
    {
      len, remain := 0, 0;
      package, headSize, head, routed := [], [], [], [];
    }

    /** Lines 255 to 278 once the header is complete. */
    method TakeHead(h: seq<Byte>)
      requires |h| == HEAD_SIZE
      modifies this
      ensures len == remain == ToInt(Length(h)) && package == [] && head == h && headSize == [] && routed == old(routed)
    {
      len := ToInt(Length(h));
      headSize := [];
      head := h;
      remain := len;
      package := [];
    }

    /** Lines 255 to 281 with enough bytes for a header. */
    method ReadHead(chunk: seq<Byte>) returns (data: seq<Byte>)
      requires |headSize| < HEAD_SIZE <= |headSize| + |chunk|
      modifies this
      ensures |head| == HEAD_SIZE && package == [] && len == remain == ToInt(Length(head)) && headSize == []
      ensures head + package + data == old(headSize) + chunk && |data| < |chunk| && routed == old(routed)
    {
      hide ToInt, Length;
      data := chunk;
      if |headSize| > 0 {
        var r := HEAD_SIZE - |headSize|;
        headSize := headSize + data[..r];
        data := data[r..];
        TakeHead(headSize);
      } else {
        TakeHead(data[..HEAD_SIZE]);
        data := data[HEAD_SIZE..];
      }
    }

    /** Lines 282 to 299, and again 302 to 319: as much of the body as there is. */
    method TakeBody(data: seq<Byte>) returns (left: seq<Byte>)
      requires |head| == HEAD_SIZE && headSize == [] && |data| < 0x8000_0000
      requires len == ToInt(Length(head)) && |package| <= Length(head) && remain == ToInt(Length(head) - |package|)
      modifies this
      ensures Valid() && |left| <= |data| && headSize == []
      ensures |left| < |data| || (left == data && (old(remain) == 0 || data == []))
      ensures left != [] ==> len == 0
      ensures routed + Messages(Pending() + left) == old(routed) + Messages(old(head + package) + data)
      ensures Rest(Pending() + left) == Rest(old(head + package) + data)
    {
      hide Messages, Rest, ToInt, Length;
      RemainTest(Length(head) - |package|, |data|);
      left := data;
      if remain >= 0 && |left| >= remain {
        BodyComplete(head, package, data);
        package := package + left[..remain];
        left := left[remain..];
        remain := 0;
        len := 0;
        package := package + [0];
        routed := routed + [package];
        package := [];
        assert [] + left == left;
      } else {
        BodyIncomplete(head, package, data);
        LongBody(head, package + left, left);
        package := package + left;
        remain := ToInt(remain - |left|);
        left := [];
      }
    }

    lemma PendingIncomplete()
      requires Valid()
      ensures Messages(Pending()) == [] && Rest(Pending()) == Pending()
    {
      if len == 0 {
        NothingComplete(headSize);
      } else {
        BodyIncomplete(head, package, []);
        assert head + package + [] == head + package;
      }
    }

    /** `RecvData`.  It needs the rest of a header in the chunk after a part of one. */
    method RecvData(chunk: seq<Byte>) returns (data: seq<Byte>)
      requires Valid() && |chunk| < 0x8000_0000
      requires len == 0 && headSize != [] && chunk != [] ==> |headSize| + |chunk| >= HEAD_SIZE
      modifies this
      ensures Valid()
      ensures routed == old(routed) + Messages(old(Pending()) + chunk)
      ensures Pending() == Rest(old(Pending()) + chunk)
    {
      hide Messages, Rest, ToInt, Length;
      data := chunk;
      while |data| > 0
        invariant Valid() && |data| < 0x8000_0000
        invariant len == 0 && headSize != [] && data != [] ==> |headSize| + |data| >= HEAD_SIZE
        invariant routed + Messages(Pending() + data) == old(routed) + Messages(old(Pending()) + chunk)
        invariant Rest(Pending() + data) == Rest(old(Pending()) + chunk)
        decreases |data|
      {
        if len == 0 {
          if headSize == [] && |data| < 4 {
            assert [] + data == data;
            NothingComplete(data);
            headSize := data;
            return;
          }
          data := ReadHead(data);
          data := TakeBody(data);
        } else {
          RestOfBody();
          data := TakeBody(data);
        }
      }
      PendingIncomplete();
      assert Pending() + data == Pending();
    }

    lemma RestOfBody()
      requires Valid() && len != 0
      ensures remain != 0
    {
      RemainTest(Length(head) - |package|, 0);
    }
  }

  // ---------------------------------------------------------------------------------------
  // Chunking
  // ---------------------------------------------------------------------------------------

  /** What `RecvData` needs of a chunking: no chunk is too large, and none leaves a part of a header
      that the next one does not complete. */
  ghost predicate Receivable(chunks: seq<seq<Byte>>) {
    forall k :: 0 <= k < |chunks| ==>
      && |chunks[k]| < 0x8000_0000
      && (0 < |Rest(Joined(chunks, k))| < HEAD_SIZE && chunks[k] != [] ==>
        |Rest(Joined(chunks, k))| + |chunks[k]| >= HEAD_SIZE)
  }

  /** Whatever the chunks, the messages routed are those of a decoding in one go. */
  method ReceiveAll(chunks: seq<seq<Byte>>) returns (receiver: Receiver)
    requires Receivable(chunks)
    ensures receiver.routed == Messages(Joined(chunks, |chunks|))
    ensures receiver.Pending() == Rest(Joined(chunks, |chunks|))
  {
    hide Messages, Rest;
    receiver := new Receiver();
    NothingComplete([]);
    for k := 0 to |chunks|
      invariant receiver.Valid() && fresh(receiver)
      invariant receiver.routed == Messages(Joined(chunks, k)) && receiver.Pending() == Rest(Joined(chunks, k))
    {
      Resume(Joined(chunks, k), chunks[k]);
      var _ := receiver.RecvData(chunks[k]);
    }
  }
}
