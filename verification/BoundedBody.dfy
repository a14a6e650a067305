/**
 * A response body that refuses to be larger than an archive may be; and the one case in
 * which it takes a stream that broke off for a whole one.
 */
module BoundedBody {

  const MAX_ARCHIVE: nat := 10 * 1024 * 1024

  type Byte = nat

  datatype Error = Fine | End | TooLarge | Broken

  /**
   * What is under the body. It makes progress until all it has is delivered; then the
   * stream is over, or, `whole` being false, the connection breaks there. `eager` says
   * whether it tells with the last bytes or only when asked for more.
   */
  class Source {
    const data: seq<Byte>
    const whole: bool
    const eager: bool
    var at: nat

    constructor (data: seq<Byte>, whole: bool, eager: bool)
      ensures this.data == data && this.whole == whole && this.eager == eager && at == 0
    {
      this.data, this.whole, this.eager, at := data, whole, eager, 0;
    }

    function Last(): Error {
      if whole then End else Broken
    }

    /** `offer` is how much comes at once. */
    method Read(want: nat, offer: nat) returns (chunk: seq<Byte>, err: Error)
      requires at <= |data|
      modifies this
      ensures old(at) <= at <= |data| && chunk == data[old(at)..at] && |chunk| <= want
      ensures err == Fine || (err == Last() && at == |data|)
      ensures 0 < want && old(at) < |data| ==> 0 < |chunk| && (at == |data| ==> (err == Fine <==> !eager))
      ensures 0 < want && old(at) == |data| ==> err == Last()
    {
      var left := |data| - at;
      var n := if offer == 0 then 1 else offer;
      if n > want { n := want; }
      if n > left { n := left; }
      chunk := data[at..at + n];
      at := at + n;
      err := if at == |data| && 0 < want && (n == 0 || eager) then Last() else Fine;
    }

    /** Cut off at the very last byte allowed, and not telling so with it. */
    predicate Unnoticed() {
      !whole && !eager && |data| == MAX_ARCHIVE
    }
  }

  class Body {
    const source: Source
    var left: int

    constructor (source: Source)
      requires source.at == 0
      ensures this.source == source && left == MAX_ARCHIVE && Delivered(0)
    {
      this.source, left := source, MAX_ARCHIVE;
    }

    /** So many bytes have been delivered, none is lost, and an eager source has more. */
    ghost predicate Delivered(n: nat)
      reads this, source
    {
      && n <= |source.data| && source.at == n && left == MAX_ARCHIVE - n && 0 <= left
      && (0 < n == |source.data| ==> !source.eager)
    }

    /** Past the last byte allowed, one more is asked for: one is too many, and none is taken for the end. */
    method Read(size: nat, offer: nat) returns (chunk: seq<Byte>, err: Error)
      requires Delivered(source.at)
      modifies this, source
      ensures |chunk| <= size && old(source.at) + |chunk| <= |source.data|
      ensures chunk == source.data[old(source.at)..old(source.at) + |chunk|]
      ensures err == Fine ==> Delivered(old(source.at) + |chunk|) && (0 < size ==> 0 < |chunk|)
      ensures err == TooLarge ==> chunk == [] && old(source.at) == MAX_ARCHIVE < |source.data|
      ensures err in {End, Broken} ==> old(source.at) + |chunk| == |source.data| <= MAX_ARCHIVE
      ensures err in {End, Broken} ==> (err == End <==> source.whole || source.Unnoticed())
    {
      if left <= 0 {
        var one, _ := source.Read(1, 1);
        if |one| > 0 { return [], TooLarge; }
        return [], End;
      }
      var want := if size > left then left else size;
      chunk, err := source.Read(want, offer);
      left := left - |chunk|;
    }

    /** Reads with these buffer sizes, in turn, until an error: how much comes at once is the source's to say. */
    method Drain(sizes: seq<nat>, offers: seq<nat>) returns (out: seq<Byte>, err: Error, calls: nat)
      requires Delivered(0) && |offers| == |sizes|
      modifies this, source
      ensures |out| <= |source.data| && |out| <= MAX_ARCHIVE && out == source.data[..|out|]
      ensures err == TooLarge ==> MAX_ARCHIVE < |source.data| && |out| == MAX_ARCHIVE
      ensures err in {End, Broken} ==> out == source.data && |source.data| <= MAX_ARCHIVE && (err == End <==> source.whole || source.Unnoticed())
      ensures err == Fine ==> calls == |sizes|
      ensures err == Fine && (forall i | 0 <= i < |sizes| :: 0 < sizes[i]) ==> |sizes| <= |out|
    {
      out, err, calls := [], Fine, 0;
      while calls < |sizes| && err == Fine
        invariant calls <= |sizes|
        invariant |out| <= |source.data| && |out| <= MAX_ARCHIVE && out == source.data[..|out|]
        invariant err == Fine ==> Delivered(|out|)
        invariant err == TooLarge ==> MAX_ARCHIVE < |source.data| && |out| == MAX_ARCHIVE
        invariant err in {End, Broken} ==> out == source.data && |source.data| <= MAX_ARCHIVE && (err == End <==> source.whole || source.Unnoticed())
        invariant err == Fine && (forall i | 0 <= i < calls :: 0 < sizes[i]) ==> calls <= |out|
        decreases |sizes| - calls
      {
        var chunk, e := Read(sizes[calls], offers[calls]);
        assert source.data[..|out| + |chunk|] == out + chunk;
        out, err := out + chunk, e;
        calls := calls + 1;
      }
    }
  }

  /**
   * With buffers that hold a byte, enough of them always come to an error. Too long a
   * stream ends in the refusal; another in its end or in the break, with all it has
   * delivered. One that broke off passes for a whole one if and only if it did so at the
   * very last byte allowed and did not tell with that byte.
   */
  method ReadAll(data: seq<Byte>, whole: bool, eager: bool, sizes: seq<nat>, offers: seq<nat>) returns (out: seq<Byte>, err: Error)
    requires |offers| == |sizes| && (forall i | 0 <= i < |sizes| :: 0 < sizes[i])
    requires |sizes| > |data| || |sizes| > MAX_ARCHIVE
    ensures out == if |data| <= 10485760 then data else data[..10485760]
    ensures err == TooLarge <==> 10485760 < |data|
    ensures |data| <= 10485760 && whole ==> err == End
    ensures |data| <= 10485760 && !whole ==> err == if |data| == 10485760 && !eager then End else Broken
  {
    var source := new Source(data, whole, eager);
    var body := new Body(source);
    var calls: nat;
    out, err, calls := body.Drain(sizes, offers);
  }
}
