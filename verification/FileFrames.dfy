/**
 * File chunks as they arrive: binary frames that the handler parses and hands to the broker
 * (src/server.rs, src/protocol.rs).  `name` is how the bytes of an id, which the parser has found
 * to be UTF-8, are read as a string.
 */
module FileFrames {
  import opened Common
  import Frames
  import Uploads

  /** A binary frame from a connection, or another broker call about uploads. */
  datatype Inbound = Frame(conn: Conn, data: Bytes) | Other(op: Uploads.Op)

  /** The broker call that comes of it: only frames of one type record a chunk, and only frames do. */
  function CallFor(name: Bytes -> string, inbound: Inbound): Option<Uploads.Op> {
    match inbound
    case Other(op) => if op.Chunk? then None else Some(op)
    case Frame(conn, data) =>
      match Frames.Parse(data)
      case Err(_) => None
      case Ok(frame) =>
        if frame.kind != Frames.PTY_FILE_CHUNK then None else Some(Uploads.Chunk(name(frame.id), conn, frame.payload))
  }

  function Calls(name: Bytes -> string, evs: seq<Event<Inbound>>): seq<Event<Uploads.Op>> {
    if evs == [] then []
    else
      var past, e := Calls(name, Front(evs)), Last(evs);
      var op := CallFor(name, e.op);
      if op.None? then past else past + [Event(e.at, e.stamp, e.closed, op.value)]
  }

  /** The bytes behind the headers of the frames accepted for an id since its latest accepted begin. */
  function FrameBytes(name: Bytes -> string, evs: seq<Event<Inbound>>, id: string): int {
    if evs == [] then 0
    else
      var past, inbound := FrameBytes(name, Front(evs), id), Last(evs).op;
      var op, calls := CallFor(name, inbound), Calls(name, evs);
      if op.None? || calls == [] then past
      else if op.value.Begin? && op.value.id == id && Uploads.Final(calls) == Uploads.Begun(Ok(())) then 0
      else if inbound.Frame? && op.value.id == id && Uploads.Final(calls) == Uploads.Decided(Uploads.Forward) then
        past + |inbound.data| - Frames.BINARY_HEADER_LEN
      else past
  }

  /** A frame records a chunk if and only if it is accepted and of type 4: with its id, its sender and what follows the header. */
  lemma ChunkExactly(name: Bytes -> string, conn: Conn, data: Bytes)
    ensures
      var accepted := |data| >= 37 && data[0] == 4 && exists cs :: Frames.Encode(cs) == data[1..37];
      && (CallFor(name, Frame(conn, data)).Some? <==> accepted)
      && (accepted ==> CallFor(name, Frame(conn, data)) == Some(Uploads.Chunk(name(data[1..37]), conn, data[37..])))
  {
    Frames.ParseExactly(data);
  }

  lemma ChunkIsFrame(name: Bytes -> string, inbound: Inbound)
    requires CallFor(name, inbound).Some?
    ensures CallFor(name, inbound).value.Chunk? <==> inbound.Frame?
    ensures inbound.Frame? ==> |CallFor(name, inbound).value.payload| == |inbound.data| - Frames.BINARY_HEADER_LEN
  {
    if inbound.Frame? {
      Frames.BuildUndoesParse(inbound.data);
    }
  }

  lemma {:induction false} LifeIsFrames(name: Bytes -> string, evs: seq<Event<Inbound>>, id: string)
    ensures Uploads.LifeOf(Calls(name, evs), id).bytes == FrameBytes(name, evs, id)
  {
    if evs != [] {
      LifeIsFrames(name, Front(evs), id);
      var op := CallFor(name, Last(evs).op);
      if op.Some? {
        ChunkIsFrame(name, Last(evs).op);
        assert Front(Calls(name, evs)) == Calls(name, Front(evs));
        Uploads.BytesOfLife(Calls(name, evs), id);
      }
    }
  }

  /**
   * However frames and other calls interleave, the byte count of a live upload is the length of
   * its accepted frames less 37 bytes each, and never exceeds min(declared, 25 MiB).
   */
  lemma FramesAccounted(name: Bytes -> string, evs: seq<Event<Inbound>>, id: string)
    ensures
      var calls := Calls(name, evs);
      && (id in Uploads.Run(calls) ==> Uploads.Run(calls)[id].forwarded == FrameBytes(name, evs, id))
      && FrameBytes(name, evs, id) <= Min(Uploads.LifeOf(calls, id).declared, 26_214_400)
  {
    LifeIsFrames(name, evs, id);
    Uploads.LifeCycle(Calls(name, evs), id);
  }
}
