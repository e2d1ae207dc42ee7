/** Go values shared by every wrapper: optional results, bytes, errors and the
    dynamically typed `interface{}` values that span tags and redis command
    arguments carry. */
module Values {

  /** A nil-able Go value (a pointer, an interface, a nil error). */
  datatype Option<+T> = None | Some(value: T)

  newtype byte = x: int | 0 <= x < 256

  /** The identity of a span, as handed out by the tracer. A `context.Context`
      or a `SpanContext` is modelled by the span it carries. */
  type SpanId = nat

  datatype Error = Error(message: string)

  /** A Go `interface{}` value as the wrappers see it. `Context` is a
      `context.Context`, carrying the span stored in it if there is one. */
  datatype Value =
    | Str(s: string)
    | Int(i: int)
    | Bool(b: bool)
    | Bytes(data: seq<byte>)
    | Context(span: Option<SpanId>)
    | List(items: seq<Value>)

  /** Go's `string(buf)`: a string holding exactly the bytes of `buf`, one
      character per byte. */
  function BytesToString(buf: seq<byte>): (s: string)
    ensures |s| == |buf|
    ensures forall i :: 0 <= i < |buf| ==> s[i] as int == buf[i] as int
  {
    seq(|buf|, i requires 0 <= i < |buf| => (buf[i] as int) as char)
  }

  /** `string(buf)` loses nothing: equal strings come from equal byte slices. */
  lemma BytesToStringInjective(a: seq<byte>, b: seq<byte>)
    requires BytesToString(a) == BytesToString(b)
    ensures a == b
  {
    assert |a| == |b|;
    forall i | 0 <= i < |a| ensures a[i] == b[i] {
      assert BytesToString(a)[i] == BytesToString(b)[i];
    }
  }
}
