/** `compress`: error propagation around a gzip writer whose algorithm is
    not modelled. */
module Compression {
  import opened Base
  import opened Effects

  /** What the gzip writer does in one run: the stream it produces for an
      input, and whether `Write` and `Close` fail. */
  datatype GzipWriter = GzipWriter(encode: seq<Byte> -> seq<Byte>, writeErr: Option<Error>, closeErr: Option<Error>)

  /** The calls made on the writer and what `compress` returns. */
  datatype Compressed = Compressed(effects: seq<Effect>, result: Result<seq<Byte>>)

  /** Writes the whole body, then closes the writer only if the write
      succeeded; returns the encoded stream only when both calls succeed,
      otherwise the first failing call's error, unwrapped and with no bytes. */
  function Compress(body: seq<Byte>, gz: GzipWriter): (c: Compressed)
    ensures 1 <= |c.effects| <= 2 && c.effects[0] == GzipWrite(body) && Consecutive(c.effects)
    ensures |c.effects| == 2 <==> gz.writeErr.None?
    ensures |c.effects| == 2 ==> c.effects[1] == GzipClose
    ensures c.result.Ok? <==> gz.writeErr.None? && gz.closeErr.None?
    ensures c.result.Ok? ==> c.result.value == gz.encode(body)
    ensures c.result.Err? ==> c.result.error == (if gz.writeErr.Some? then gz.writeErr.value else gz.closeErr.value)
  {
    match gz.writeErr
    case Some(e) => Compressed([GzipWrite(body)], Err(e))
    case None =>
      match gz.closeErr
      case Some(e) => Compressed([GzipWrite(body), GzipClose], Err(e))
      case None => Compressed([GzipWrite(body), GzipClose], Ok(gz.encode(body)))
  }
}
