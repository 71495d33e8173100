/** The field layout of the PlayerInput message: one count byte, then per
    sample its five key bits, its tick and its look rotation. The client
    writes it and the server reads it; bit packing is the transport's. */
module Wire {
  import opened Types

  datatype Field =
    | ByteField(b: Byte)
    | BoolsField(bits: seq<bool>)
    | UShortField(u: U16)
    | QuaternionField(q: Quaternion)

  /** The three fields written for one sample. */
  function RecordFields(x: ClientInput): seq<Field> {
    [BoolsField(x.keys), UShortField(x.currentTick), QuaternionField(x.rotation)]
  }

  /** The fields written for a run of samples, in order. */
  function Records(s: seq<ClientInput>): seq<Field>
    decreases |s|
  {
    if s == [] then [] else RecordFields(s[0]) + Records(s[1..])
  }

  /** A whole message: the count byte, then the samples. */
  function Batch(count: Byte, s: seq<ClientInput>): seq<Field> {
    [ByteField(count)] + Records(s)
  }

  /** Reading one sample back: five bools, a ushort, a quaternion. */
  function ParseRecord(a: Field, b: Field, c: Field): Option<ClientInput> {
    if a.BoolsField? && |a.bits| == 5 && b.UShortField? && c.QuaternionField? then
      Some(ClientInput(a.bits, b.u, c.q))
    else None
  }

  function Prepend(a: seq<ClientInput>, rest: Option<seq<ClientInput>>): Option<seq<ClientInput>> {
    match rest
    case None => None
    case Some(b) => Some(a + b)
  }

  /** Reading n samples from the front of fs; None when fs runs short or a
      field has the wrong kind. Fields after the n-th sample are ignored. */
  function DecodeRecords(fs: seq<Field>, n: nat): (r: Option<seq<ClientInput>>)
    ensures r.Some? ==> |r.value| == n && 3 * n <= |fs|
    decreases n
  {
    if n == 0 then Some([])
    else if |fs| < 3 then None
    else match ParseRecord(fs[0], fs[1], fs[2])
      case None => None
      case Some(x) => Prepend([x], DecodeRecords(fs[3..], n - 1))
  }

  /** Reading a whole message: the count byte, then that many samples. */
  function DecodeBatch(message: seq<Field>): (r: Option<seq<ClientInput>>)
    ensures r.Some? ==> 0 < |message| && message[0].ByteField? && message[0].b == |r.value| && 1 + 3 * |r.value| <= |message|
  {
    if |message| == 0 || !message[0].ByteField? then None
    else DecodeRecords(message[1..], message[0].b)
  }

  /** Writing one more sample appends its three fields. */
  lemma {:induction false} RecordsSnoc(s: seq<ClientInput>, x: ClientInput)
    ensures Records(s + [x]) == Records(s) + RecordFields(x)
    decreases |s|
  {
    if s == [] {
      assert [] + [x] == [x];
      assert [x][1..] == [];
    } else {
      assert (s + [x])[1..] == s[1..] + [x];
      RecordsSnoc(s[1..], x);
    }
  }

  /** The k-th sample occupies fields 3k, 3k+1 and 3k+2, in that order. */
  lemma {:induction false} RecordsAt(s: seq<ClientInput>)
    ensures |Records(s)| == 3 * |s|
    ensures forall k :: 0 <= k < |s| ==>
              && Records(s)[3 * k] == BoolsField(s[k].keys)
              && Records(s)[3 * k + 1] == UShortField(s[k].currentTick)
              && Records(s)[3 * k + 2] == QuaternionField(s[k].rotation)
    decreases |s|
  {
    if s != [] {
      RecordsAt(s[1..]);
      forall k | 1 <= k < |s|
        ensures Records(s)[3 * k] == BoolsField(s[k].keys)
        ensures Records(s)[3 * k + 1] == UShortField(s[k].currentTick)
        ensures Records(s)[3 * k + 2] == QuaternionField(s[k].rotation)
      {
        assert s[1..][k - 1] == s[k];
        assert 3 * k == 3 + 3 * (k - 1);
      }
    }
  }

  /** Reading n samples from the fields of s gives back the first n of them
      when s has that many, and fails when it has fewer. */
  lemma {:induction false} DecodeRecordsOfRecords(s: seq<ClientInput>, n: nat)
    ensures n <= |s| ==> DecodeRecords(Records(s), n) == Some(s[..n])
    ensures n > |s| ==> DecodeRecords(Records(s), n) == None
    decreases n
  {
    if n > 0 && s != [] {
      var fs := Records(s);
      assert fs == RecordFields(s[0]) + Records(s[1..]);
      assert fs[3..] == Records(s[1..]);
      DecodeRecordsOfRecords(s[1..], n - 1);
      if n <= |s| {
        assert [s[0]] + s[1..][..n - 1] == s[..n];
      }
    }
  }

  /** A message decodes to exactly the samples written into it if and only
      if its count byte equals their number. */
  lemma BatchRoundTrip(count: Byte, s: seq<ClientInput>)
    ensures DecodeBatch(Batch(count, s)) == Some(s) <==> count == |s|
  {
    var m := Batch(count, s);
    assert m[1..] == Records(s);
    DecodeRecordsOfRecords(s, count);
    assert s[..|s|] == s;
  }
}
