/**
 What a change message means, in the words of its sender: which operation its `_op`
 names, what each member does to its field, which JSON value becomes which cell, and
 under which key the row is kept.
 */
module StreamMeaning {
  import opened Wrappers
  import opened StreamIngest
  import opened StreamLaws

  // ─── Operations ────────────────────────────────────────────────────────────

  /** The same letter, whatever its case. */
  predicate SameLetter(c: char, lower: char) {
    c == lower || ('A' <= c <= 'Z' && c as int + 32 == lower as int)
  }

  predicate SameWord(s: string, lower: string) {
    |s| == |lower| && forall i :: 0 <= i < |s| ==> SameLetter(s[i], lower[i])
  }

  /** The message has a string `_op` that is this word in any case of letters. */
  predicate Says(obj: Object, word: string) {
    exists i :: 0 <= i < |obj| && obj[i].0 == "_op" && obj[i].1.JString? && SameWord(obj[i].1.s, word)
  }

  /** No `_op`, or one that is not a string. */
  predicate SaysNothing(obj: Object) {
    forall i :: 0 <= i < |obj| && obj[i].0 == "_op" ==> !obj[i].1.JString?
  }

  /** Words without capitals. */
  predicate Lowercase(s: string) {
    forall i :: 0 <= i < |s| ==> !('A' <= s[i] <= 'Z')
  }

  lemma FoldedIs(s: string, word: string)
    requires Lowercase(word)
    ensures LowerAll(s) == word <==> SameWord(s, word)
  {
    if SameWord(s, word) {
      forall i | 0 <= i < |s| ensures LowerAll(s)[i] == word[i] {
        assert SameLetter(s[i], word[i]);
      }
    }
    if LowerAll(s) == word {
      forall i | 0 <= i < |s| ensures SameLetter(s[i], word[i]) {
        assert LowerAll(s)[i] == word[i];
      }
    }
  }

  lemma LookupUnique(obj: Object, i: nat)
    requires UniqueKeys(obj) && i < |obj|
    ensures Lookup(obj, obj[i].0) == Some(obj[i].1)
  {
  }

  lemma SaysIs(obj: Object, word: string)
    requires UniqueKeys(obj) && Lowercase(word)
    ensures Says(obj, word) <==> Lookup(obj, "_op").Some? && Lookup(obj, "_op").value.JString? && LowerAll(Lookup(obj, "_op").value.s) == word
  {
    hide LowerAll, SameWord;
    if Says(obj, word) {
      var i :| 0 <= i < |obj| && obj[i].0 == "_op" && obj[i].1.JString? && SameWord(obj[i].1.s, word);
      LookupUnique(obj, i);
      FoldedIs(obj[i].1.s, word);
    }
    var v := Lookup(obj, "_op");
    if v.Some? && v.value.JString? && LowerAll(v.value.s) == word {
      FoldedIs(v.value.s, word);
    }
  }

  lemma SaysNothingIs(obj: Object)
    requires UniqueKeys(obj)
    ensures SaysNothing(obj) <==> !(Lookup(obj, "_op").Some? && Lookup(obj, "_op").value.JString?)
  {
    forall i | 0 <= i < |obj| && obj[i].0 == "_op" ensures Lookup(obj, "_op") == Some(obj[i].1) {
      LookupUnique(obj, i);
    }
  }

  lemma OpWords(obj: Object)
    requires UniqueKeys(obj)
    ensures OpOf(obj) == Delete <==> Says(obj, "delete")
    ensures OpOf(obj) == Insert <==> Says(obj, "insert")
    ensures OpOf(obj) == Upsert <==> Says(obj, "upsert") || Says(obj, "") || SaysNothing(obj)
    ensures !(Says(obj, "delete") && Says(obj, "insert"))
  {
    hide LowerAll, Says, Lookup;
    SaysIs(obj, "delete");
    SaysIs(obj, "insert");
    SaysIs(obj, "upsert");
    SaysIs(obj, "");
    SaysNothingIs(obj);
  }

  /** The document a message that is merged starts from. */
  function Base(schema: Schema, idx: Index, key: string): (r: Doc) {
    if key in idx then idx[key] else NewDoc(schema)
  }

  /**
   A message with a key: "delete" removes exactly its row; "insert" is refused for a
   present key and otherwise stores the merged new document; "upsert", an empty word
   or no word at all stores the row merged with the message; every other word is
   refused.  A merge that fails leaves the index alone.
   */
  lemma MessageMeans(schema: Schema, idx: Index, obj: Object, key: string)
    requires GoodSchema(schema) && GoodPk(schema) && UniqueKeys(obj) && GoodIndex(schema, idx) && ExtractPk(schema, obj) == Ok(key)
    ensures Says(obj, "delete") ==> ApplyObject(schema, idx, obj) == Ok(idx - {key})
    ensures Says(obj, "insert") && key in idx ==> ApplyObject(schema, idx, obj) == Rejected
    ensures Says(obj, "insert") && key !in idx ==>
      match MergeJson(schema, NewDoc(schema), obj)
      case Ok(d) => ApplyObject(schema, idx, obj) == Ok(idx[key := d])
      case Rejected => ApplyObject(schema, idx, obj) == Rejected
      case Thrown => ApplyObject(schema, idx, obj) == Thrown
    ensures Says(obj, "upsert") || Says(obj, "") || SaysNothing(obj) ==>
      match MergeJson(schema, Base(schema, idx, key), obj)
      case Ok(d) => ApplyObject(schema, idx, obj) == Ok(idx[key := d])
      case Rejected => ApplyObject(schema, idx, obj) == Rejected
      case Thrown => ApplyObject(schema, idx, obj) == Thrown
  {
    hide MergeJson, ExtractPk, OpOf, Says, SaysNothing, NewDoc, GoodSchema, UniqueKeys, WellShaped, ApplyObject;
    OpWords(obj);
    ApplyIsLocal(schema, idx, obj);
  }

  /** Any other word is refused, key or not; and a message without a usable key changes nothing whatever it says. */
  lemma OtherMessages(schema: Schema, idx: Index, obj: Object)
    requires UniqueKeys(obj)
    ensures !Says(obj, "delete") && !Says(obj, "insert") && !Says(obj, "upsert") && !Says(obj, "") && !SaysNothing(obj) ==>
      ApplyObject(schema, idx, obj) == Rejected
    ensures !ExtractPk(schema, obj).Ok? ==> !ApplyObject(schema, idx, obj).Ok?
  {
    hide MergeJson, ExtractPk, OpOf, Says, SaysNothing, NewDoc, UniqueKeys, Store, UpsertBase;
    OpWords(obj);
  }

  // ─── Members ───────────────────────────────────────────────────────────────

  /** The value a message gives for a field; reserved names and nulls give none. */
  function Given(obj: Object, def: FieldDef): (r: Option<Json>) {
    if def.name == "_op" || def.name == "_ts" || Lookup(obj, def.name) == Some(JNull) then None else Lookup(obj, def.name)
  }

  predicate AllConvert(ty: DataType, items: seq<Json>) {
    forall i :: 0 <= i < |items| ==> Convert(ty, items[i]).Some?
  }

  predicate Suits(def: FieldDef, v: Json) {
    if def.isArray then v.JArray? && def.ty != Bool && AllConvert(def.ty, v.items) else Convert(def.ty, v).Some?
  }

  /** What a field holds after a message. */
  predicate Merges(def: FieldDef, before: Slot, v: Option<Json>, after: Slot) {
    match v
    case None => after == before
    case Some(j) =>
      && Suits(def, j)
      && if def.isArray then
           && before.Array? && after.Array? && |after.cells| == |before.cells| + |j.items| && after.cells[..|before.cells|] == before.cells
           && forall i :: 0 <= i < |j.items| ==> after.cells[|before.cells| + i] == Convert(def.ty, j.items[i]).value
         else after == Scalar(Convert(def.ty, j).value)
  }

  lemma {:induction false} ConvertAllIs(ty: DataType, items: seq<Json>)
    ensures ConvertAll(ty, items).Some? <==> AllConvert(ty, items)
    ensures ConvertAll(ty, items).Some? ==>
      && |ConvertAll(ty, items).value| == |items|
      && forall i :: 0 <= i < |items| ==> Convert(ty, items[i]).Some? && ConvertAll(ty, items).value[i] == Convert(ty, items[i]).value
  {
    hide Convert;
    if items != [] {
      ConvertAllIs(ty, items[..|items| - 1]);
    }
  }

  lemma ChangeMeans(obj: Object, def: FieldDef, s: Slot)
    requires ShapedSlot(def, s)
    ensures ChangeFor(obj, def).Ok? <==> Given(obj, def).None? || Suits(def, Given(obj, def).value)
    ensures ChangeFor(obj, def).Ok? ==> Merges(def, s, Given(obj, def), Changed(s, ChangeFor(obj, def).value))
  {
    hide Lookup, Convert, ConvertAll, AllConvert;
    var v := Given(obj, def);
    if v.Some? && def.isArray && v.value.JArray? {
      ConvertAllIs(def.ty, v.value.items);
    }
  }

  /** Every field after a merge: as the message says, or as it was. */
  lemma MembersMean(schema: Schema, doc: Doc, obj: Object, def: FieldDef)
    requires GoodSchema(schema) && UniqueKeys(obj) && WellShaped(schema, doc) && def in schema.fields && MergeJson(schema, doc, obj).Ok?
    ensures Merges(def, SlotOf(doc, def), Given(obj, def), SlotOf(MergeJson(schema, doc, obj).value, def))
  {
    hide GoodSchema, UniqueKeys, WellShaped, MergeJson, SlotOf, Merges, Changed, Given, ChangeFor;
    ShapeTotal(schema, doc);
    ShapedAt(schema, doc, def);
    MergePointwise(schema, doc, obj, def);
    ChangeMeans(obj, def, SlotOf(doc, def));
  }

  /** A merge succeeds exactly if every value given suits its field. */
  lemma MergeSucceedsIff(schema: Schema, doc: Doc, obj: Object)
    requires GoodSchema(schema) && UniqueKeys(obj) && WellShaped(schema, doc)
    ensures MergeJson(schema, doc, obj).Ok? <==>
      forall def :: def in schema.fields ==> Given(obj, def).None? || Suits(def, Given(obj, def).value)
  {
    hide GoodSchema, UniqueKeys, WellShaped, MergeJson, SlotOf, Changed, Given, ChangeFor, Suits;
    ShapeTotal(schema, doc);
    forall def | def in schema.fields ensures ChangeFor(obj, def).Ok? <==> Given(obj, def).None? || Suits(def, Given(obj, def).value) {
      ShapedAt(schema, doc, def);
      ChangeMeans(obj, def, SlotOf(doc, def));
    }
    if MergeJson(schema, doc, obj).Ok? {
      forall def | def in schema.fields ensures ChangeFor(obj, def).Ok? {
        MergePointwise(schema, doc, obj, def);
      }
    } else if forall def :: def in schema.fields ==> ChangeFor(obj, def).Ok? {
      MergeOkIff(schema, doc, obj);
    }
  }

  /** Which failure it is: a value of the wrong JSON kind for an array is refused, a value that cannot be converted throws. */
  lemma FirstFailure(schema: Schema, doc: Doc, obj: Object, i: nat, def: FieldDef)
    requires GoodSchema(schema) && i < |obj| && MergeJson(schema, doc, obj[..i]).Ok?
    requires def in schema.fields && obj[i].0 == def.name && def.name != "_op" && def.name != "_ts"
    requires obj[i].1 != JNull && !Suits(def, obj[i].1)
    ensures
      if def.isArray && (!obj[i].1.JArray? || def.ty == Bool) then MergeJson(schema, doc, obj) == Rejected else MergeJson(schema, doc, obj) == Thrown
  {
    hide Convert, ConvertAll, AllConvert, GoodSchema;
    var v := obj[i].1;
    FieldUnique(schema, def);
    if def.isArray && v.JArray? {
      ConvertAllIs(def.ty, v.items);
    }
    assert obj[..i + 1][..i] == obj[..i];
    MergeStops(schema, doc, obj, i + 1);
  }

  // ─── Values ────────────────────────────────────────────────────────────────

  predicate InRange(i: int, bits: nat) {
    if bits == 32 then -0x8000_0000 <= i < 0x8000_0000 else -0x8000_0000_0000_0000 <= i < 0x8000_0000_0000_0000
  }

  predicate Congruent(i: int, j: int, bits: nat) {
    (i - j) % (if bits == 32 then 0x1_0000_0000 else 0x1_0000_0000_0000_0000) == 0
  }

  /** The whole part of a number, towards zero. */
  predicate WholePart(x: real, i: int) {
    if x >= 0.0 then i as real <= x < i as real + 1.0 else i as real - 1.0 < x <= i as real
  }

  lemma TruncIsWhole(x: real)
    ensures WholePart(x, Trunc(x))
  {
  }

  /** Integers in range stay what they are, others wrap around; numbers with a fraction lose it. */
  lemma IntegersConvert(i: int, x: real)
    ensures
      var a, b := Convert(Int32, JInt(i)), Convert(Int64, JInt(i));
      && a.Some? && a.value.CInt? && InRange(a.value.i, 32) && Congruent(i, a.value.i, 32) && (InRange(i, 32) ==> a.value.i == i)
      && b.Some? && b.value.CInt? && InRange(b.value.i, 64) && Congruent(i, b.value.i, 64) && (InRange(i, 64) ==> b.value.i == i)
    ensures
      var a, b := Convert(Int32, JFloat(x)), Convert(Int64, JFloat(x));
      && a.Some? && a.value.CInt? && (forall w :: WholePart(x, w) && InRange(w, 32) ==> a.value.i == w)
      && b.Some? && b.value.CInt? && (forall w :: WholePart(x, w) && InRange(w, 64) ==> b.value.i == w)
  {
    TruncIsWhole(x);
    forall w | WholePart(x, w) ensures w == Trunc(x) {
    }
  }

  /** Truth values are 1 and 0 where a truth value, an Int32 or a Float32 is asked for, and nowhere else. */
  lemma TruthConverts(b: bool)
    ensures Convert(Bool, JBool(b)) == Some(CInt(if b then 1 else 0)) && Convert(Int32, JBool(b)) == Some(CInt(if b then 1 else 0))
    ensures Convert(Float32, JBool(b)) == Some(CReal(if b then 1.0 else 0.0))
    ensures Convert(Int64, JBool(b)).None? && Convert(Float64, JBool(b)).None? && Convert(String, JBool(b)).None? && Convert(Bytes, JBool(b)).None?
  {
  }

  lemma TextAndNumbersConvert(s: string, i: int, x: real)
    ensures Convert(String, JString(s)) == Some(CStr(s)) && Convert(Bytes, JString(s)) == Some(CStr(s))
    ensures Convert(Float32, JInt(i)) == Some(CReal(i as real)) && Convert(Float64, JInt(i)) == Some(CReal(i as real))
    ensures Convert(Float32, JFloat(x)) == Some(CReal(x)) && Convert(Float64, JFloat(x)) == Some(CReal(x))
  {
  }

  /** A string is no number, a number no string, and a truth value neither is. */
  lemma NothingElseConverts(ty: DataType, j: Json)
    requires j.JNull? || j.JArray? || j.JObject?
      || (j.JString? && ty != String && ty != Bytes)
      || ((j.JInt? || j.JFloat?) && (ty == String || ty == Bytes || ty == Bool))
    ensures Convert(ty, j).None?
  {
  }

  /** A new document: zero, the empty text, or no elements, in exactly the fields of the schema. */
  lemma NewDocMeans(schema: Schema, def: FieldDef)
    requires GoodSchema(schema) && def in schema.fields
    ensures
      var s := SlotOf(NewDoc(schema), def);
      && def.id in NewDoc(schema)
      && (def.isArray ==> s == Array([]))
      && (!def.isArray && (def.ty == Bool || def.ty == Int32 || def.ty == Int64) ==> s == Scalar(CInt(0)))
      && (!def.isArray && (def.ty == Float32 || def.ty == Float64) ==> s == Scalar(CReal(0.0)))
      && (!def.isArray && (def.ty == String || def.ty == Bytes) ==> s == Scalar(CStr("")))
    ensures forall id :: id in NewDoc(schema) ==> exists i :: 0 <= i < |schema.fields| && schema.fields[i].id == id
  {
    hide NewDoc;
    NewDocDefault(schema);
    var i :| 0 <= i < |schema.fields| && schema.fields[i] == def;
  }

  // ─── Keys ──────────────────────────────────────────────────────────────────

  predicate IsKeyField(schema: Schema, def: FieldDef) {
    def in schema.fields && def.name == schema.pk
  }

  /**
   A message names a row exactly if the schema has the pk field, of a key type, and the
   message gives a value for it that converts; the name is the text or the decimal
   numeral of the converted value.
   */
  lemma KeyMeans(schema: Schema, obj: Object, def: FieldDef)
    requires GoodSchema(schema) && IsKeyField(schema, def)
    ensures
      var v := Lookup(obj, def.name);
      && (ExtractPk(schema, obj).Ok? <==>
            (def.ty == Int32 || def.ty == Int64 || def.ty == String || def.ty == Bytes) && v.Some? && v.value != JNull && Convert(def.ty, v.value).Some?)
      && (ExtractPk(schema, obj).Ok? && (def.ty == String || def.ty == Bytes) ==> v.value == JString(ExtractPk(schema, obj).value))
      && (ExtractPk(schema, obj).Ok? && (def.ty == Int32 || def.ty == Int64) ==>
            Convert(def.ty, v.value).value.CInt? && Numeral(ExtractPk(schema, obj).value, Convert(def.ty, v.value).value.i))
  {
    hide Lookup, GoodSchema, FindField, Numeral;
    FieldUnique(schema, def);
    var v := Lookup(obj, def.name);
    if v.Some? && Convert(def.ty, v.value).Some? && Convert(def.ty, v.value).value.CInt? {
      DecimalIsNumeral(Convert(def.ty, v.value).value.i);
    }
  }

  function ValueOf(s: string): (r: nat)
    requires forall i :: 0 <= i < |s| ==> '0' <= s[i] <= '9'
  {
    if s == [] then 0 else 10 * ValueOf(s[..|s| - 1]) + (s[|s| - 1] - '0') as nat
  }

  predicate AllDigits(s: string) {
    s != [] && (forall i :: 0 <= i < |s| ==> '0' <= s[i] <= '9') && (|s| > 1 ==> s[0] != '0')
  }

  /** The decimal numeral of an integer, without leading zeros. */
  predicate Numeral(s: string, i: int) {
    if i >= 0 then AllDigits(s) && ValueOf(s) == i
    else s != [] && s[0] == '-' && AllDigits(s[1..]) && ValueOf(s[1..]) == -i
  }

  lemma {:induction false} DigitsAreNumeral(n: nat)
    ensures AllDigits(Digits(n)) && ValueOf(Digits(n)) == n && (n > 0 ==> Digits(n)[0] != '0')
  {
    var d := Digits(n);
    if n >= 10 {
      DigitsAreNumeral(n / 10);
      assert d[..|d| - 1] == Digits(n / 10);
    } else {
      assert d[..0] == [];
    }
  }

  lemma DecimalIsNumeral(i: int)
    ensures Numeral(Decimal(i), i)
  {
    hide Digits;
    if i >= 0 {
      DigitsAreNumeral(i);
    } else {
      DigitsAreNumeral(-i);
      assert Decimal(i)[1..] == Digits(-i);
    }
  }
}
