/** The types of vectors: what the builder computes and the reader takes apart. */
module FlexVectorTypes {
  import opened Wrappers
  import opened Bits
  import opened FlexBuffers
  import opened FlexVectors

  const FBT_KEY: nat := 4
  const FBT_STRING: nat := 5
  const FBT_MAP: nat := 9
  const FBT_VECTOR: nat := 10
  const FBT_BLOB: nat := 25

  function ToTypedVector(ty: nat, fixedLen: nat): (r: nat)
    requires ty >= 1
  {
    if fixedLen == 0 then ty + 10
    else if fixedLen == 2 then ty + 15
    else if fixedLen == 3 then ty + 18
    else ty + 21
  }

  /** `ToTypedVectorElementType`, for vectors of any length. */
  function ElementType(ty: nat): (r: int) {
    ty - 11 + 1
  }

  /** `ToFixedTypedVectorElementType`: element type and length. */
  function FixedElementType(ty: nat): (r: (nat, nat))
    requires 16 <= ty <= 24
  {
    var t := ty - 16;
    (t % 3 + 1, t / 3 + 2)
  }

  /** The reader recovers element type and length from the type of a typed vector. */
  lemma TypedVectorTypes(ty: nat, len: nat)
    requires 1 <= ty && (len == 0 || (2 <= len <= 4 && ty <= FBT_FLOAT))
    ensures len == 0 ==> ElementType(ToTypedVector(ty, len)) == ty
    ensures len != 0 ==> 16 <= ToTypedVector(ty, len) <= 24 && FixedElementType(ToTypedVector(ty, len)) == (ty, len)
  {
  }

  predicate IsTypedVectorElementType(ty: nat) {
    1 <= ty <= 5 || ty == FBT_BOOL
  }

  /** A typed vector has elements of one admissible type, and a fixed one is typed and short. */
  predicate TypesAgree(q: Request, elems: seq<Value>) {
    && (q.fixed ==> q.typed && 2 <= q.len <= 4)
    && (q.typed ==> forall k :: 0 <= k < |elems| ==> elems[k].ty == elems[0].ty && IsTypedVectorElementType(elems[k].ty))
  }

  function VectorType(q: Request, elems: seq<Value>): (r: nat)
    requires TypesAgree(q, elems)
  {
    if q.keys.Some? then FBT_MAP
    else if q.typed then ToTypedVector(if elems == [] then FBT_KEY else elems[0].ty, if q.fixed then q.len else 0)
    else FBT_VECTOR
  }

  /** Fixed-length typed vectors exist for numbers only. */
  predicate NumericElements(elems: seq<Value>) {
    elems != [] && elems[0].ty <= FBT_FLOAT
  }

  /** A finished vector can itself be an element of the next one. */
  lemma NewVectorIsProper(buf: seq<byte>, q: Request, elems: seq<Value>)
    requires GoodRequest(q, elems, |buf|) && TypesAgree(q, elems) && (q.fixed ==> NumericElements(elems))
    ensures
      var W := CommonWidth(q, elems, |buf|);
      Proper(Value(VectorType(q, elems), |Header(buf, q, W)|, 0, W), |VectorBytes(buf, q, elems)|)
  {
    hide CommonWidth, Header, VectorBytes;
    VectorLayout(buf, q, elems);
    assert |elems| * Bytes(CommonWidth(q, elems, |buf|)) >= 0;
  }
}
