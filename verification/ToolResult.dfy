/**
 The tool results internal/mcp/tools.go and server.go write by hand into one
 slice sized up front: never larger than that, and zeroed once written.
 */
module ToolResult {
  import opened Common
  import opened Encode

  /** A value or notes: their JSON, if any was sent. */
  datatype Field = Field(fieldID: seq<byte>, label_: seq<byte>, kind: seq<byte>, value: Option<seq<byte>>)

  datatype Item = Item(itemID: seq<byte>, name: seq<byte>, category: seq<byte>, fields: seq<Field>, notes: Option<seq<byte>>)

  datatype Use = Use(itemID: seq<byte>, fieldID: seq<byte>, action: seq<byte>, result: seq<byte>)

  /** The bytes of a text whose characters are all ASCII. */
  function Lit(s: string): (b: seq<byte>)
    ensures |b| == |s|
  {
    seq(|s|, i requires 0 <= i < |s| => s[i] as int % 256)
  }

  function OptLen(v: Option<seq<byte>>): nat { if v.Some? then |v.value| else 0 }

  // ---- item.get ----

  function FieldSize(f: Field): nat {
    48 + QuotedBound(|f.fieldID|) + QuotedBound(|f.label_|) + QuotedBound(|f.kind|) + CompactBound(OptLen(f.value))
  }

  function FieldsSize(fs: seq<Field>): nat
    decreases |fs|
  {
    if fs == [] then 0 else FieldsSize(fs[..|fs| - 1]) + FieldSize(fs[|fs| - 1])
  }

  function ItemJSONSize(it: Item): nat {
    80 + QuotedBound(|it.itemID|) + QuotedBound(|it.name|) + QuotedBound(|it.category|) + CompactBound(OptLen(it.notes))
    + FieldsSize(it.fields)
  }

  /** What is in the slice once a field is appended to b. */
  function WithField(b: seq<byte>, f: Field): seq<byte> {
    var head := b + Lit("{\"field_id\":") + Quoted(f.fieldID) + Lit(",\"label\":") + Quoted(f.label_) + Lit(",\"kind\":") + Quoted(f.kind);
    (if f.value.Some? then head + Lit(",\"value\":") + Compact(false, f.value.value) else head) + Lit("}")
  }

  function WithFields(b: seq<byte>, fs: seq<Field>): seq<byte>
    decreases |fs|
  {
    if fs == [] then b
    else
      var before := WithFields(b, fs[..|fs| - 1]);
      WithField(if |fs| > 1 then before + Lit(",") else before, fs[|fs| - 1])
  }

  function ItemHead(it: Item): seq<byte> {
    Lit("{\"status\":\"ok\",\"item\":{\"item_id\":") + Quoted(it.itemID) + Lit(",\"name\":") + Quoted(it.name)
    + Lit(",\"category\":") + Quoted(it.category) + Lit(",\"fields\":[")
  }

  function WithNotes(b: seq<byte>, notes: Option<seq<byte>>): seq<byte> {
    (if notes.Some? then b + Lit("]") + Lit(",\"notes\":") + Compact(false, notes.value) else b + Lit("]")) + Lit("}}")
  }

  function ItemJSON(it: Item): seq<byte> { WithNotes(WithFields(ItemHead(it), it.fields), it.notes) }

  lemma QuotedFits(b: seq<byte>)
    ensures |Quoted(b)| <= QuotedBound(|b|)
  {
    QuotedOneLine(b);
  }

  lemma FieldFits(b: seq<byte>, f: Field)
    ensures |WithField(b, f)| + 1 <= |b| + FieldSize(f)
  {
    QuotedFits(f.fieldID);
    QuotedFits(f.label_);
    QuotedFits(f.kind);
    if f.value.Some? {
      CompactBounded(false, f.value.value);
    }
  }

  lemma {:induction false} FieldsFit(b: seq<byte>, fs: seq<Field>)
    ensures |WithFields(b, fs)| <= |b| + FieldsSize(fs)
    decreases |fs|
  {
    if fs != [] {
      FieldsFit(b, fs[..|fs| - 1]);
      var before := WithFields(b, fs[..|fs| - 1]);
      FieldFits(if |fs| > 1 then before + Lit(",") else before, fs[|fs| - 1]);
    }
  }

  lemma HeadFits(it: Item)
    ensures |ItemHead(it)| <= 66 + QuotedBound(|it.itemID|) + QuotedBound(|it.name|) + QuotedBound(|it.category|)
  {
    QuotedFits(it.itemID);
    QuotedFits(it.name);
    QuotedFits(it.category);
  }

  /** For every item, whatever bytes its texts hold, its JSON fits what is allocated for it. */
  lemma ItemFits(it: Item)
    ensures |ItemJSON(it)| <= ItemJSONSize(it)
  {
    HeadFits(it);
    FieldsFit(ItemHead(it), it.fields);
    if it.notes.Some? {
      CompactBounded(false, it.notes.value);
    }
  }

  method AppendField(b0: seq<byte>, f: Field) returns (b: seq<byte>)
    ensures b == WithField(b0, f)
  {
    b := AppendQuoted(b0 + Lit("{\"field_id\":"), f.fieldID);
    b := AppendQuoted(b + Lit(",\"label\":"), f.label_);
    b := AppendQuoted(b + Lit(",\"kind\":"), f.kind);
    if f.value.Some? {
      b := AppendCompact(b + Lit(",\"value\":"), f.value.value);
    }
    b := b + Lit("}");
  }

  method WriteHead(it: Item) returns (b: seq<byte>)
    ensures b == ItemHead(it)
  {
    b := AppendQuoted(Lit("{\"status\":\"ok\",\"item\":{\"item_id\":"), it.itemID);
    b := AppendQuoted(b + Lit(",\"name\":"), it.name);
    b := AppendQuoted(b + Lit(",\"category\":"), it.category);
    b := b + Lit(",\"fields\":[");
  }

  method AppendFields(b0: seq<byte>, fs: seq<Field>) returns (b: seq<byte>)
    ensures b == WithFields(b0, fs)
  {
    b := b0;
    for i := 0 to |fs|
      invariant b == WithFields(b0, fs[..i])
    {
      assert fs[..i + 1][..i] == fs[..i];
      if i > 0 {
        b := b + Lit(",");
      }
      b := AppendField(b, fs[i]);
    }
    assert fs[..|fs|] == fs;
  }

  /** itemJSON; capacity: what is allocated up front. */
  method WriteItem(it: Item) returns (b: seq<byte>, capacity: nat)
    ensures b == ItemJSON(it) && |b| <= capacity == ItemJSONSize(it)
  {
    ItemFits(it);
    capacity := ComputeItemSize(it);
    b := WriteHead(it);
    b := AppendFields(b, it.fields);
    b := b + Lit("]");
    if it.notes.Some? {
      b := AppendCompact(b + Lit(",\"notes\":"), it.notes.value);
    }
    b := b + Lit("}}");
  }

  method ComputeItemSize(it: Item) returns (n: nat)
    ensures n == ItemJSONSize(it)
  {
    n := 80 + QuotedBound(|it.itemID|) + QuotedBound(|it.name|) + QuotedBound(|it.category|) + CompactBound(OptLen(it.notes));
    ghost var head := n;
    for i := 0 to |it.fields|
      invariant n == head + FieldsSize(it.fields[..i])
    {
      assert it.fields[..i + 1][..i] == it.fields[..i];
      var f := it.fields[i];
      n := n + 48 + QuotedBound(|f.fieldID|) + QuotedBound(|f.label_|) + QuotedBound(|f.kind|) + CompactBound(OptLen(f.value));
    }
    assert it.fields[..|it.fields|] == it.fields;
  }

  // ---- item.use ----

  /** The padded base64 text of n bytes. */
  function Base64Len(n: nat): nat { (n + 2) / 3 * 4 }

  function UseJSONSize(u: Use): nat {
    64 + QuotedBound(|u.itemID|) + QuotedBound(|u.fieldID|) + QuotedBound(|u.action|) + Base64Len(|u.result|)
  }

  function UseHead(u: Use): seq<byte> {
    Lit("{\"status\":\"ok\",\"item_id\":") + Quoted(u.itemID) + Lit(",\"field_id\":") + Quoted(u.fieldID)
    + Lit(",\"action\":") + Quoted(u.action)
  }

  /** base64: the result's text, of the length base64 gives it. */
  function UseJSON(u: Use, base64: seq<byte>): seq<byte> { UseHead(u) + Lit(",\"result\":\"") + base64 + Lit("\"}") }

  lemma UseFits(u: Use, base64: seq<byte>)
    requires |base64| == Base64Len(|u.result|)
    ensures |UseJSON(u, base64)| <= UseJSONSize(u)
  {
    QuotedFits(u.itemID);
    QuotedFits(u.fieldID);
    QuotedFits(u.action);
  }

  method WriteUseHead(u: Use) returns (b: seq<byte>)
    ensures b == UseHead(u)
  {
    b := AppendQuoted(Lit("{\"status\":\"ok\",\"item_id\":"), u.itemID);
    b := AppendQuoted(b + Lit(",\"field_id\":"), u.fieldID);
    b := AppendQuoted(b + Lit(",\"action\":"), u.action);
  }

  /** useJSON; base64: the encoder's text for the result. */
  method WriteUse(u: Use, base64: seq<byte>) returns (b: seq<byte>, capacity: nat)
    requires |base64| == Base64Len(|u.result|)
    ensures b == UseJSON(u, base64) && |b| <= capacity == UseJSONSize(u)
  {
    UseFits(u, base64);
    capacity := UseJSONSize(u);
    b := WriteUseHead(u);
    b := b + Lit(",\"result\":\"");
    b := b + base64;
    b := b + Lit("\"}");
  }

  // ---- what is read from them ----

  /** The values' JSON reads as the values read gives. */
  ghost predicate Reads(read: seq<byte> -> Json, v: Option<seq<byte>>) {
    v.Some? ==> Tokens(v.value) == Some(Written(read(v.value)))
  }

  ghost predicate ItemReads(read: seq<byte> -> Json, it: Item) {
    Reads(read, it.notes) && forall f <- it.fields :: Reads(read, f.value)
  }

  function OptMember(key: seq<byte>, v: Option<seq<byte>>, read: seq<byte> -> Json): seq<Member> {
    if v.Some? then [Member(key, read(v.value))] else []
  }

  function TextMember(key: seq<byte>, v: seq<byte>): Member { Member(key, Str(Sanitized(v))) }

  /** Three texts under their keys. */
  datatype Texts = Texts(k1: seq<byte>, v1: seq<byte>, k2: seq<byte>, v2: seq<byte>, k3: seq<byte>, v3: seq<byte>)

  function TextMembers(x: Texts): seq<Member> { [TextMember(x.k1, x.v1), TextMember(x.k2, x.v2), TextMember(x.k3, x.v3)] }

  function FieldTexts(f: Field): Texts { Texts(Lit("field_id"), f.fieldID, Lit("label"), f.label_, Lit("kind"), f.kind) }

  function ItemTexts(it: Item): Texts { Texts(Lit("item_id"), it.itemID, Lit("name"), it.name, Lit("category"), it.category) }

  function FieldTree(f: Field, read: seq<byte> -> Json): Json {
    Record(TextMembers(FieldTexts(f)) + OptMember(Lit("value"), f.value, read))
  }

  function FieldTrees(fs: seq<Field>, read: seq<byte> -> Json): seq<Json> {
    seq(|fs|, i requires 0 <= i < |fs| => FieldTree(fs[i], read))
  }

  function ItemMembers(it: Item, read: seq<byte> -> Json): seq<Member> {
    TextMembers(ItemTexts(it)) + [Member(Lit("fields"), List(FieldTrees(it.fields, read)))] + OptMember(Lit("notes"), it.notes, read)
  }

  /** The value item.get's result stands for. */
  function ItemTree(it: Item, read: seq<byte> -> Json): Json {
    Record([TextMember(Lit("status"), Lit("ok")), Member(Lit("item"), Record(ItemMembers(it, read)))])
  }

  /** b reads as t, and does not end in a word. */
  predicate Closed(b: seq<byte>, t: seq<Token>) { Tokens(b) == Some(t) && (b == [] || !IsWord(b[|b| - 1])) }

  /** b reads as t and a record begun with these members. */
  ghost predicate Begun(b: seq<byte>, t: seq<Token>, ms: seq<Member>) {
    ms != [] && Tokens(b) == Some(t + [Punct(0x7b)] + WrittenMembers(ms))
  }

  /** A key with its quotes and colon, after a comma or brace. */
  function KeyAfter(c: byte, k: seq<byte>): seq<byte> { [c, QUOTE] + k + [QUOTE, 0x3a] }

  function KeyTokens(c: byte, k: seq<byte>): seq<Token> { [Punct(c), Text(k), Punct(0x3a)] }

  lemma Single(c: byte)
    requires IsPunct(c)
    ensures Tokens([c]) == Some([Punct(c)])
  {
    assert [c][1..] == [] && [Punct(c)] + [] == [Punct(c)];
  }

  lemma Follows(a: seq<byte>, t: seq<Token>, x: seq<byte>, u: seq<Token>)
    requires Tokens(a) == Some(t) && Tokens(x) == Some(u) && Apart(a, x)
    ensures Tokens(a + x) == Some(t + u)
  {
    TokensThen(a, x);
  }

  lemma KeyTail(k: seq<byte>)
    requires Verbatim(k)
    ensures Tokens([QUOTE] + k + [QUOTE, 0x3a]) == Some([Text(k), Punct(0x3a)])
  {
    VerbatimQuoted(k);
    QuotedToken(k);
    Single(0x3a);
    Follows(Quoted(k), [Text(k)], [0x3a], [Punct(0x3a)]);
    assert Quoted(k) + [0x3a] == [QUOTE] + k + [QUOTE, 0x3a];
    assert [Text(k)] + [Punct(0x3a)] == [Text(k), Punct(0x3a)];
  }

  lemma KeyReads(c: byte, k: seq<byte>)
    requires IsPunct(c) && Verbatim(k)
    ensures Tokens(KeyAfter(c, k)) == Some(KeyTokens(c, k))
    ensures var b := KeyAfter(c, k); b != [] && b[0] == c && b[|b| - 1] == 0x3a
  {
    var tail := [QUOTE] + k + [QUOTE, 0x3a];
    KeyTail(k);
    Single(c);
    Follows([c], [Punct(c)], tail, [Text(k), Punct(0x3a)]);
    assert [c] + tail == KeyAfter(c, k);
    assert [Punct(c)] + [Text(k), Punct(0x3a)] == KeyTokens(c, k);
  }

  /** A key and the value after it. */
  lemma KeyedReads(c: byte, k: seq<byte>, p: seq<byte>, j: Json)
    requires IsPunct(c) && Verbatim(k) && Tokens(p) == Some(Written(j))
    ensures Tokens(KeyAfter(c, k) + p) == Some(KeyTokens(c, k) + Written(j))
    ensures (KeyAfter(c, k) + p)[0] == c
  {
    KeyReads(c, k);
    Follows(KeyAfter(c, k), KeyTokens(c, k), p, Written(j));
  }

  lemma OneMore(t: seq<Token>, ms: seq<Member>, m: Member)
    ensures t + [Punct(0x7b)] + WrittenMembers([m]) == t + (KeyTokens(0x7b, m.key) + Written(m.value))
    ensures ms != [] ==> t + [Punct(0x7b)] + WrittenMembers(ms + [m]) == t + [Punct(0x7b)] + WrittenMembers(ms) + (KeyTokens(0x2c, m.key) + Written(m.value))
  {
    assert [m][..0] == [] && (ms + [m])[..|ms|] == ms;
    assert WrittenMembers([m]) == [] + [] + [Text(m.key), Punct(0x3a)] + Written(m.value);
  }

  /** The first member of a record. */
  lemma FirstMember(b: seq<byte>, t: seq<Token>, k: seq<byte>, p: seq<byte>, j: Json)
    requires Closed(b, t) && Verbatim(k) && Tokens(p) == Some(Written(j))
    ensures Begun(b + (KeyAfter(0x7b, k) + p), t, [Member(k, j)])
  {
    KeyedReads(0x7b, k, p, j);
    OneMore(t, [], Member(k, j));
    Follows(b, t, KeyAfter(0x7b, k) + p, KeyTokens(0x7b, k) + Written(j));
  }

  /** The next. */
  lemma NextMember(b: seq<byte>, t: seq<Token>, ms: seq<Member>, k: seq<byte>, p: seq<byte>, j: Json)
    requires Begun(b, t, ms) && Verbatim(k) && Tokens(p) == Some(Written(j))
    ensures Begun(b + (KeyAfter(0x2c, k) + p), t, ms + [Member(k, j)])
  {
    KeyedReads(0x2c, k, p, j);
    OneMore(t, ms, Member(k, j));
    Follows(b, t + [Punct(0x7b)] + WrittenMembers(ms), KeyAfter(0x2c, k) + p, KeyTokens(0x2c, k) + Written(j));
  }

  lemma EndRecord(b: seq<byte>, t: seq<Token>, ms: seq<Member>)
    requires Begun(b, t, ms)
    ensures Closed(b + [0x7d], t + Written(Record(ms)))
  {
    Single(0x7d);
    Follows(b, t + [Punct(0x7b)] + WrittenMembers(ms), [0x7d], [Punct(0x7d)]);
    assert t + [Punct(0x7b)] + WrittenMembers(ms) + [Punct(0x7d)] == t + ([Punct(0x7b)] + WrittenMembers(ms) + [Punct(0x7d)]);
  }

  predicate KeysVerbatim(x: Texts) { Verbatim(x.k1) && Verbatim(x.k2) && Verbatim(x.k3) }

  function TextsHead(b: seq<byte>, x: Texts): seq<byte> {
    b + (KeyAfter(0x7b, x.k1) + Quoted(x.v1)) + (KeyAfter(0x2c, x.k2) + Quoted(x.v2)) + (KeyAfter(0x2c, x.k3) + Quoted(x.v3))
  }

  lemma TextsRead(b: seq<byte>, t: seq<Token>, x: Texts)
    requires Closed(b, t) && KeysVerbatim(x)
    ensures Begun(TextsHead(b, x), t, TextMembers(x))
  {
    QuotedToken(x.v1);
    QuotedToken(x.v2);
    QuotedToken(x.v3);
    FirstMember(b, t, x.k1, Quoted(x.v1), Str(Sanitized(x.v1)));
    var b1, m1, m2, m3 := b + (KeyAfter(0x7b, x.k1) + Quoted(x.v1)), TextMember(x.k1, x.v1), TextMember(x.k2, x.v2), TextMember(x.k3, x.v3);
    NextMember(b1, t, [m1], x.k2, Quoted(x.v2), Str(Sanitized(x.v2)));
    NextMember(b1 + (KeyAfter(0x2c, x.k2) + Quoted(x.v2)), t, [m1] + [m2], x.k3, Quoted(x.v3), Str(Sanitized(x.v3)));
    assert [m1] + [m2] + [m3] == TextMembers(x);
  }

  /** What follows the head of a record with one more member, if it has a value. */
  function WithOpt(b: seq<byte>, k: seq<byte>, v: Option<seq<byte>>): seq<byte> {
    if v.Some? then b + (KeyAfter(0x2c, k) + Compact(false, v.value)) else b
  }

  lemma OptReads(b: seq<byte>, t: seq<Token>, ms: seq<Member>, k: seq<byte>, v: Option<seq<byte>>, read: seq<byte> -> Json)
    requires Begun(b, t, ms) && Verbatim(k) && Reads(read, v)
    ensures Begun(WithOpt(b, k, v), t, ms + OptMember(k, v, read))
  {
    if v.Some? {
      CompactKeepsJson(v.value, read(v.value));
      NextMember(b, t, ms, k, Compact(false, v.value), read(v.value));
    } else {
      assert ms + [] == ms;
    }
  }

  // ---- fields ----

  predicate IsKey(s: string) { forall i | 0 <= i < |s| :: 'a' <= s[i] <= 'z' || s[i] == '_' }

  lemma KeyIsVerbatim(s: string)
    requires IsKey(s)
    ensures Verbatim(Lit(s))
  {}

  lemma FieldKeys(f: Field)
    ensures KeysVerbatim(FieldTexts(f)) && Verbatim(Lit("value"))
  {
    KeyIsVerbatim("field_id");
    KeyIsVerbatim("label");
    KeyIsVerbatim("kind");
    KeyIsVerbatim("value");
  }

  lemma FieldLits()
    ensures Lit("{\"field_id\":") == KeyAfter(0x7b, Lit("field_id")) && Lit(",\"label\":") == KeyAfter(0x2c, Lit("label"))
    ensures Lit(",\"kind\":") == KeyAfter(0x2c, Lit("kind")) && Lit(",\"value\":") == KeyAfter(0x2c, Lit("value"))
    ensures Lit("}") == [0x7d] && Lit(",") == [0x2c]
  {}

  lemma TextsJoin(b: seq<byte>, k1: seq<byte>, q1: seq<byte>, k2: seq<byte>, q2: seq<byte>, k3: seq<byte>, q3: seq<byte>)
    ensures b + k1 + q1 + k2 + q2 + k3 + q3 == b + (k1 + q1) + (k2 + q2) + (k3 + q3)
  {}

  lemma FieldIs(b: seq<byte>, f: Field)
    ensures WithField(b, f) == WithOpt(TextsHead(b, FieldTexts(f)), Lit("value"), f.value) + [0x7d]
  {
    FieldLits();
    TextsJoin(b, KeyAfter(0x7b, Lit("field_id")), Quoted(f.fieldID), KeyAfter(0x2c, Lit("label")), Quoted(f.label_), KeyAfter(0x2c, Lit("kind")), Quoted(f.kind));
    if f.value.Some? {
      Joins(TextsHead(b, FieldTexts(f)), KeyAfter(0x2c, Lit("value")), Compact(false, f.value.value));
    }
  }

  /** A record of three texts and, if there is one, a value. */
  lemma RecordReads(b: seq<byte>, t: seq<Token>, x: Texts, k: seq<byte>, v: Option<seq<byte>>, read: seq<byte> -> Json)
    requires Closed(b, t) && KeysVerbatim(x) && Verbatim(k) && Reads(read, v)
    ensures Closed(WithOpt(TextsHead(b, x), k, v) + [0x7d], t + Written(Record(TextMembers(x) + OptMember(k, v, read))))
  {
    TextsRead(b, t, x);
    OptReads(TextsHead(b, x), t, TextMembers(x), k, v, read);
    EndRecord(WithOpt(TextsHead(b, x), k, v), t, TextMembers(x) + OptMember(k, v, read));
  }

  lemma FieldIsRead(b: seq<byte>, t: seq<Token>, f: Field, read: seq<byte> -> Json)
    requires Closed(b, t) && Reads(read, f.value)
    ensures Closed(WithField(b, f), t + Written(FieldTree(f, read)))
  {
    FieldIs(b, f);
    FieldKeys(f);
    RecordReads(b, t, FieldTexts(f), Lit("value"), f.value, read);
  }

  lemma CommaReads(b: seq<byte>, t: seq<Token>)
    requires Tokens(b) == Some(t)
    ensures Closed(b + [0x2c], t + [Punct(0x2c)])
  {
    Single(0x2c);
    Follows(b, t, [0x2c], [Punct(0x2c)]);
  }

  lemma ItemsStep(t: seq<Token>, js: seq<Json>)
    requires js != []
    ensures var n := |js| - 1; var u := t + WrittenItems(js[..n]);
            t + WrittenItems(js) == (if n > 0 then u + [Punct(0x2c)] else u) + Written(js[n])
  {
    var n := |js| - 1;
    var w, sep := WrittenItems(js[..n]), if n > 0 then [Punct(0x2c)] else [];
    Joins(t, w + sep, Written(js[n]));
    Joins(t, w, sep);
    assert n == 0 ==> t + w + [] == t + w;
  }

  /** One more field after those before it. */
  lemma NextField(before: seq<byte>, u: seq<Token>, more: bool, f: Field, read: seq<byte> -> Json)
    requires Closed(before, u) && Reads(read, f.value)
    ensures Closed(WithField(if more then before + Lit(",") else before, f), (if more then u + [Punct(0x2c)] else u) + Written(FieldTree(f, read)))
  {
    if more {
      FieldLits();
      CommaReads(before, u);
      FieldIsRead(before + [0x2c], u + [Punct(0x2c)], f, read);
    } else {
      FieldIsRead(before, u, f, read);
    }
  }

  lemma {:induction false} FieldsAreRead(b: seq<byte>, t: seq<Token>, fs: seq<Field>, read: seq<byte> -> Json)
    requires Closed(b, t) && forall f <- fs :: Reads(read, f.value)
    ensures Closed(WithFields(b, fs), t + WrittenItems(FieldTrees(fs, read)))
    decreases |fs|
  {
    var trees := FieldTrees(fs, read);
    if fs == [] {
      assert t + WrittenItems(trees) == t;
    } else {
      var n := |fs| - 1;
      FieldsAreRead(b, t, fs[..n], read);
      assert trees[..n] == FieldTrees(fs[..n], read);
      ItemsStep(t, trees);
      NextField(WithFields(b, fs[..n]), t + WrittenItems(trees[..n]), n > 0, fs[n], read);
    }
  }

  // ---- a record in a record, and a list in it ----

  /** What is before the value of a begun record's next member. */
  function Inside(t: seq<Token>, ms: seq<Member>, k: seq<byte>): seq<Token> { t + [Punct(0x7b)] + WrittenMembers(ms) + KeyTokens(0x2c, k) }

  lemma Enter(b: seq<byte>, t: seq<Token>, ms: seq<Member>, k: seq<byte>)
    requires Begun(b, t, ms) && Verbatim(k)
    ensures Closed(b + KeyAfter(0x2c, k), Inside(t, ms, k))
  {
    KeyReads(0x2c, k);
    Follows(b, t + [Punct(0x7b)] + WrittenMembers(ms), KeyAfter(0x2c, k), KeyTokens(0x2c, k));
  }

  lemma Leave(b: seq<byte>, t: seq<Token>, ms: seq<Member>, k: seq<byte>, j: Json)
    requires ms != [] && Tokens(b) == Some(Inside(t, ms, k) + Written(j))
    ensures Begun(b, t, ms + [Member(k, j)])
  {
    OneMore(t, ms, Member(k, j));
    Joins(t + [Punct(0x7b)] + WrittenMembers(ms), KeyTokens(0x2c, k), Written(j));
  }

  lemma ListBegins(b: seq<byte>, t: seq<Token>)
    requires Closed(b, t)
    ensures Closed(b + [0x5b], t + [Punct(0x5b)])
  {
    Single(0x5b);
    Follows(b, t, [0x5b], [Punct(0x5b)]);
  }

  lemma ListEnds(b: seq<byte>, t: seq<Token>, js: seq<Json>)
    requires Closed(b, t + [Punct(0x5b)] + WrittenItems(js))
    ensures Closed(b + [0x5d], t + Written(List(js)))
  {
    Single(0x5d);
    Follows(b, t + [Punct(0x5b)] + WrittenItems(js), [0x5d], [Punct(0x5d)]);
    assert t + [Punct(0x5b)] + WrittenItems(js) + [Punct(0x5d)] == t + ([Punct(0x5b)] + WrittenItems(js) + [Punct(0x5d)]);
  }

  /** A list of fields after its key. */
  function WithList(b: seq<byte>, k: seq<byte>, fs: seq<Field>): seq<byte> { WithFields(b + KeyAfter(0x2c, k) + [0x5b], fs) + [0x5d] }

  lemma ListIsRead(b: seq<byte>, t: seq<Token>, ms: seq<Member>, k: seq<byte>, fs: seq<Field>, read: seq<byte> -> Json)
    requires Begun(b, t, ms) && Verbatim(k) && forall f <- fs :: Reads(read, f.value)
    ensures Begun(WithList(b, k, fs), t, ms + [Member(k, List(FieldTrees(fs, read)))])
  {
    var start, u, js := b + KeyAfter(0x2c, k), Inside(t, ms, k), FieldTrees(fs, read);
    Enter(b, t, ms, k);
    ListBegins(start, u);
    FieldsAreRead(start + [0x5b], u + [Punct(0x5b)], fs, read);
    ListEnds(WithFields(start + [0x5b], fs), u, js);
    Leave(WithList(b, k, fs), t, ms, k, List(js));
  }

  /** A record with texts, a list of fields and, if there is one, a value. */
  function WithRecord(b: seq<byte>, x: Texts, kList: seq<byte>, fs: seq<Field>, k: seq<byte>, v: Option<seq<byte>>): seq<byte> {
    WithOpt(WithList(TextsHead(b, x), kList, fs), k, v) + [0x7d]
  }

  function RecordTree(x: Texts, kList: seq<byte>, fs: seq<Field>, k: seq<byte>, v: Option<seq<byte>>, read: seq<byte> -> Json): Json {
    Record(TextMembers(x) + [Member(kList, List(FieldTrees(fs, read)))] + OptMember(k, v, read))
  }

  lemma RecordIsRead(b: seq<byte>, t: seq<Token>, x: Texts, kList: seq<byte>, fs: seq<Field>, k: seq<byte>, v: Option<seq<byte>>, read: seq<byte> -> Json)
    requires Closed(b, t) && KeysVerbatim(x) && Verbatim(kList) && Verbatim(k) && Reads(read, v) && forall f <- fs :: Reads(read, f.value)
    ensures Closed(WithRecord(b, x, kList, fs, k, v), t + Written(RecordTree(x, kList, fs, k, v, read)))
  {
    var ms := TextMembers(x) + [Member(kList, List(FieldTrees(fs, read)))];
    var b2 := WithList(TextsHead(b, x), kList, fs);
    TextsRead(b, t, x);
    ListIsRead(TextsHead(b, x), t, TextMembers(x), kList, fs, read);
    OptReads(b2, t, ms, k, v, read);
    EndRecord(WithOpt(b2, k, v), t, ms + OptMember(k, v, read));
  }

  /** A record of one text and, under the next key, a record. */
  lemma OuterIsRead(k1: seq<byte>, v1: seq<byte>, k2: seq<byte>, x: Texts, kList: seq<byte>, fs: seq<Field>, k: seq<byte>, v: Option<seq<byte>>, read: seq<byte> -> Json)
    requires Verbatim(k1) && Verbatim(k2) && KeysVerbatim(x) && Verbatim(kList) && Verbatim(k) && Reads(read, v) && forall f <- fs :: Reads(read, f.value)
    ensures Tokens(WithRecord(KeyAfter(0x7b, k1) + Quoted(v1) + KeyAfter(0x2c, k2), x, kList, fs, k, v) + [0x7d])
            == Some(Written(Record([TextMember(k1, v1), Member(k2, RecordTree(x, kList, fs, k, v, read))])))
  {
    var m1, j := TextMember(k1, v1), RecordTree(x, kList, fs, k, v, read);
    var head := KeyAfter(0x7b, k1) + Quoted(v1);
    QuotedToken(v1);
    FirstMember([], [], k1, Quoted(v1), Str(Sanitized(v1)));
    assert [] + head == head;
    Enter(head, [], [m1], k2);
    RecordIsRead(head + KeyAfter(0x2c, k2), Inside([], [m1], k2), x, kList, fs, k, v, read);
    var b := WithRecord(head + KeyAfter(0x2c, k2), x, kList, fs, k, v);
    Leave(b, [], [m1], k2, j);
    EndRecord(b, [], [m1] + [Member(k2, j)]);
    assert [m1] + [Member(k2, j)] == [m1, Member(k2, j)];
    assert [] + Written(Record([m1, Member(k2, j)])) == Written(Record([m1, Member(k2, j)]));
  }

  // ---- item.get's and item.use's own texts ----

  lemma LitJoins(a: string, b: string)
    ensures Lit(a + b) == Lit(a) + Lit(b)
  {}

  lemma OkQuoted()
    ensures Quoted(Lit("ok")) == [QUOTE] + Lit("ok") + [QUOTE]
  {
    KeyIsVerbatim("ok");
    VerbatimQuoted(Lit("ok"));
  }

  lemma StatusBytes()
    ensures Lit("{\"status\":\"ok\"") == KeyAfter(0x7b, Lit("status")) + ([QUOTE] + Lit("ok") + [QUOTE])
  {}

  lemma StatusLit()
    ensures Lit("{\"status\":\"ok\"") == KeyAfter(0x7b, Lit("status")) + Quoted(Lit("ok"))
  {
    StatusBytes();
    OkQuoted();
  }

  lemma HeadString()
    ensures "{\"status\":\"ok\"" + ",\"item\":" + "{\"item_id\":" == "{\"status\":\"ok\",\"item\":{\"item_id\":"
  {}

  lemma HeadLit()
    ensures Lit("{\"status\":\"ok\",\"item\":{\"item_id\":") == KeyAfter(0x7b, Lit("status")) + Quoted(Lit("ok")) + Lit(",\"item\":") + Lit("{\"item_id\":")
  {
    HeadString();
    StatusLit();
    LitJoins("{\"status\":\"ok\"", ",\"item\":");
    LitJoins("{\"status\":\"ok\"" + ",\"item\":", "{\"item_id\":");
  }

  lemma ItemLits()
    ensures Lit(",\"item\":") == KeyAfter(0x2c, Lit("item")) && Lit("{\"item_id\":") == KeyAfter(0x7b, Lit("item_id"))
    ensures Lit(",\"name\":") == KeyAfter(0x2c, Lit("name"))
  {}

  lemma ListLits()
    ensures Lit(",\"category\":") == KeyAfter(0x2c, Lit("category")) && Lit(",\"fields\":[") == KeyAfter(0x2c, Lit("fields")) + [0x5b]
  {}

  lemma EndLits()
    ensures Lit("]") == [0x5d] && Lit(",\"notes\":") == KeyAfter(0x2c, Lit("notes")) && Lit("}}") == [0x7d] + [0x7d]
  {}

  lemma ItemKeys(it: Item)
    ensures KeysVerbatim(ItemTexts(it))
  {
    KeyIsVerbatim("item_id");
    KeyIsVerbatim("name");
    KeyIsVerbatim("category");
  }

  lemma OtherKeys()
    ensures Verbatim(Lit("status")) && Verbatim(Lit("item")) && Verbatim(Lit("fields")) && Verbatim(Lit("notes"))
  {
    KeyIsVerbatim("status");
    KeyIsVerbatim("item");
    KeyIsVerbatim("fields");
    KeyIsVerbatim("notes");
  }

  function Start(): seq<byte> { KeyAfter(0x7b, Lit("status")) + Quoted(Lit("ok")) + KeyAfter(0x2c, Lit("item")) }

  lemma ItemHeadIs(it: Item)
    ensures ItemHead(it) == TextsHead(Start(), ItemTexts(it)) + KeyAfter(0x2c, Lit("fields")) + [0x5b]
  {
    HeadLit();
    ItemLits();
    ListLits();
    TextsJoin(Start(), KeyAfter(0x7b, Lit("item_id")), Quoted(it.itemID), KeyAfter(0x2c, Lit("name")), Quoted(it.name), KeyAfter(0x2c, Lit("category")), Quoted(it.category));
    Joins(TextsHead(Start(), ItemTexts(it)), KeyAfter(0x2c, Lit("fields")), [0x5b]);
  }

  lemma ItemJSONIs(it: Item)
    ensures ItemJSON(it) == WithRecord(Start(), ItemTexts(it), Lit("fields"), it.fields, Lit("notes"), it.notes) + [0x7d]
  {
    EndLits();
    ItemHeadIs(it);
    var b := WithFields(ItemHead(it), it.fields) + [0x5d];
    if it.notes.Some? {
      Joins(b, KeyAfter(0x2c, Lit("notes")), Compact(false, it.notes.value));
    }
    Joins(WithOpt(b, Lit("notes"), it.notes), [0x7d], [0x7d]);
  }

  /**
   For every item whose values and notes are JSON: what is written for it reads
   as a JSON value with the item's texts, invalid bytes replaced, and the values
   its own JSON reads as.
   */
  lemma ItemIsRead(it: Item, read: seq<byte> -> Json)
    requires ItemReads(read, it)
    ensures Tokens(ItemJSON(it)) == Some(Written(ItemTree(it, read)))
  {
    ItemKeys(it);
    OtherKeys();
    ItemJSONIs(it);
    OuterIsRead(Lit("status"), Lit("ok"), Lit("item"), ItemTexts(it), Lit("fields"), it.fields, Lit("notes"), it.notes, read);
  }

  /** The value item.use's result stands for; base64: its result's text. */
  function UseTree(u: Use, base64: seq<byte>): Json {
    Record([TextMember(Lit("status"), Lit("ok")), TextMember(Lit("item_id"), u.itemID), TextMember(Lit("field_id"), u.fieldID),
            TextMember(Lit("action"), u.action), Member(Lit("result"), Str(base64))])
  }

  /** Five texts under their keys. */
  function FiveHead(k0: seq<byte>, v0: seq<byte>, k1: seq<byte>, v1: seq<byte>, k2: seq<byte>, v2: seq<byte>, k3: seq<byte>, v3: seq<byte>,
                    k4: seq<byte>, v4: seq<byte>): seq<byte> {
    KeyAfter(0x7b, k0) + Quoted(v0) + (KeyAfter(0x2c, k1) + Quoted(v1)) + (KeyAfter(0x2c, k2) + Quoted(v2)) + (KeyAfter(0x2c, k3) + Quoted(v3))
    + (KeyAfter(0x2c, k4) + Quoted(v4))
  }

  lemma NextText(b: seq<byte>, ms: seq<Member>, k: seq<byte>, v: seq<byte>)
    requires Begun(b, [], ms) && Verbatim(k)
    ensures Begun(b + (KeyAfter(0x2c, k) + Quoted(v)), [], ms + [TextMember(k, v)])
  {
    QuotedToken(v);
    NextMember(b, [], ms, k, Quoted(v), Str(Sanitized(v)));
  }

  lemma FiveRead(k0: seq<byte>, v0: seq<byte>, k1: seq<byte>, v1: seq<byte>, k2: seq<byte>, v2: seq<byte>, k3: seq<byte>, v3: seq<byte>,
                 k4: seq<byte>, v4: seq<byte>)
    requires Verbatim(k0) && Verbatim(k1) && Verbatim(k2) && Verbatim(k3) && Verbatim(k4)
    ensures Tokens(FiveHead(k0, v0, k1, v1, k2, v2, k3, v3, k4, v4) + [0x7d])
            == Some(Written(Record([TextMember(k0, v0), TextMember(k1, v1), TextMember(k2, v2), TextMember(k3, v3), TextMember(k4, v4)])))
  {
    var m0, m1, m2, m3, m4 := TextMember(k0, v0), TextMember(k1, v1), TextMember(k2, v2), TextMember(k3, v3), TextMember(k4, v4);
    var b0 := KeyAfter(0x7b, k0) + Quoted(v0);
    QuotedToken(v0);
    FirstMember([], [], k0, Quoted(v0), m0.value);
    assert [] + b0 == b0;
    NextText(b0, [m0], k1, v1);
    var b1 := b0 + (KeyAfter(0x2c, k1) + Quoted(v1));
    NextText(b1, [m0] + [m1], k2, v2);
    var b2 := b1 + (KeyAfter(0x2c, k2) + Quoted(v2));
    NextText(b2, [m0] + [m1] + [m2], k3, v3);
    var b3 := b2 + (KeyAfter(0x2c, k3) + Quoted(v3));
    NextText(b3, [m0] + [m1] + [m2] + [m3], k4, v4);
    var ms := [m0, m1, m2, m3, m4];
    assert [m0] + [m1] + [m2] + [m3] + [m4] == ms;
    EndRecord(b3 + (KeyAfter(0x2c, k4) + Quoted(v4)), [], ms);
    assert [] + Written(Record(ms)) == Written(Record(ms));
  }

  lemma UseString()
    ensures "{\"status\":\"ok\"" + ",\"item_id\":" == "{\"status\":\"ok\",\"item_id\":"
  {}

  lemma UseLits()
    ensures Lit("{\"status\":\"ok\",\"item_id\":") == KeyAfter(0x7b, Lit("status")) + Quoted(Lit("ok")) + Lit(",\"item_id\":")
    ensures Lit(",\"item_id\":") == KeyAfter(0x2c, Lit("item_id"))
    ensures Lit(",\"field_id\":") == KeyAfter(0x2c, Lit("field_id"))
  {
    UseString();
    StatusLit();
    LitJoins("{\"status\":\"ok\"", ",\"item_id\":");
  }

  lemma ResultLits()
    ensures Lit(",\"action\":") == KeyAfter(0x2c, Lit("action"))
    ensures Lit(",\"result\":\"") == KeyAfter(0x2c, Lit("result")) + [QUOTE] && Lit("\"}") == [QUOTE] + [0x7d]
  {}

  lemma UseKeys()
    ensures Verbatim(Lit("status")) && Verbatim(Lit("item_id")) && Verbatim(Lit("field_id")) && Verbatim(Lit("action")) && Verbatim(Lit("result"))
  {
    KeyIsVerbatim("status");
    KeyIsVerbatim("item_id");
    KeyIsVerbatim("field_id");
    KeyIsVerbatim("action");
    KeyIsVerbatim("result");
  }

  lemma UseJoins(b: seq<byte>, k1: seq<byte>, q1: seq<byte>, k2: seq<byte>, q2: seq<byte>, k3: seq<byte>, q3: seq<byte>, k4: seq<byte>, q4: seq<byte>)
    ensures b + k1 + q1 + k2 + q2 + k3 + q3 + (k4 + [QUOTE]) + q4 + ([QUOTE] + [0x7d])
            == b + (k1 + q1) + (k2 + q2) + (k3 + q3) + (k4 + ([QUOTE] + q4 + [QUOTE])) + [0x7d]
  {}

  lemma UseJSONIs(u: Use, base64: seq<byte>)
    requires Verbatim(base64)
    ensures UseJSON(u, base64) == FiveHead(Lit("status"), Lit("ok"), Lit("item_id"), u.itemID, Lit("field_id"), u.fieldID, Lit("action"), u.action, Lit("result"), base64) + [0x7d]
  {
    UseLits();
    ResultLits();
    VerbatimQuoted(base64);
    UseJoins(KeyAfter(0x7b, Lit("status")) + Quoted(Lit("ok")), KeyAfter(0x2c, Lit("item_id")), Quoted(u.itemID), KeyAfter(0x2c, Lit("field_id")), Quoted(u.fieldID),
             KeyAfter(0x2c, Lit("action")), Quoted(u.action), KeyAfter(0x2c, Lit("result")), base64);
  }

  /** So for item.use: base64 is the alphabet's letters, digits, + and /, and padding. */
  lemma UseIsRead(u: Use, base64: seq<byte>)
    requires Verbatim(base64)
    ensures Tokens(UseJSON(u, base64)) == Some(Written(UseTree(u, base64)))
  {
    UseKeys();
    UseJSONIs(u, base64);
    FiveRead(Lit("status"), Lit("ok"), Lit("item_id"), u.itemID, Lit("field_id"), u.fieldID, Lit("action"), u.action, Lit("result"), base64);
    VerbatimQuoted(base64);
  }

  // ---- the message ----

  function ToolResultSize(id: seq<byte>, body: seq<byte>): nat {
    |"{\"jsonrpc\":\"2.0\",\"id\":"| + |id| + |",\"result\":{\"content\":[{\"type\":\"text\",\"text\":"| + QuotedBound(|body|)
    + |"}],\"structuredContent\":"| + |body| + |",\"isError\":"| + |"false"| + |"}}\n"|
  }

  /** The parts of a tool result message, in order. */
  function Parts(id: seq<byte>, body: seq<byte>, isError: bool): seq<seq<byte>> {
    [Lit("{\"jsonrpc\":\"2.0\",\"id\":"), id, Lit(",\"result\":{\"content\":[{\"type\":\"text\",\"text\":"), Quoted(body),
     Lit("}],\"structuredContent\":"), body, Lit(",\"isError\":"), Lit(if isError then "true" else "false"), Lit("}}\n")]
  }

  function Joined(parts: seq<seq<byte>>): seq<byte>
    decreases |parts|
  {
    if parts == [] then [] else Joined(parts[..|parts| - 1]) + parts[|parts| - 1]
  }

  lemma {:induction false} JoinedPrefix(parts: seq<seq<byte>>, k: nat)
    requires k <= |parts|
    ensures |Joined(parts[..k])| <= |Joined(parts)|
    decreases |parts|
  {
    if k < |parts| {
      assert parts[..|parts| - 1][..k] == parts[..k];
      JoinedPrefix(parts[..|parts| - 1], k);
    } else {
      assert parts[..k] == parts;
    }
  }

  function TotalLen(parts: seq<seq<byte>>): nat
    decreases |parts|
  {
    if parts == [] then 0 else TotalLen(parts[..|parts| - 1]) + |parts[|parts| - 1]|
  }

  lemma {:induction false} JoinedLen(parts: seq<seq<byte>>)
    ensures |Joined(parts)| == TotalLen(parts)
    decreases |parts|
  {
    if parts != [] {
      JoinedLen(parts[..|parts| - 1]);
    }
  }

  lemma MessageFits(id: seq<byte>, body: seq<byte>, isError: bool)
    ensures |Joined(Parts(id, body, isError))| <= ToolResultSize(id, body)
  {
    QuotedFits(body);
    var p := Parts(id, body, isError);
    JoinedLen(p);
    assert TotalLen(p) == |p[0]| + |p[1]| + |p[2]| + |p[3]| + |p[4]| + |p[5]| + |p[6]| + |p[7]| + |p[8]| by {
      assert p[..9] == p;
      forall k | 1 <= k <= 9 ensures TotalLen(p[..k]) == TotalLen(p[..k - 1]) + |p[k - 1]| {
        assert p[..k][..k - 1] == p[..k - 1];
      }
      assert p[..0] == [];
    }
  }

  /** Copies part to buf at k. */
  method Put(buf: array<byte>, k: nat, part: seq<byte>) returns (n: nat)
    requires k + |part| <= buf.Length
    modifies buf
    ensures n == k + |part| && buf[..n] == old(buf[..k]) + part
  {
    for i := 0 to |part|
      invariant buf[..k + i] == old(buf[..k]) + part[..i]
    {
      buf[k + i] := part[i];
      assert buf[..k + i + 1] == buf[..k + i] + [part[i]];
    }
    assert part[..|part|] == part;
    n := k + |part|;
  }

  /** writeToolResult: one buffer, sized up front, is filled, written and zeroed. */
  method WriteToolResult(id: seq<byte>, body: seq<byte>, isError: bool) returns (written: seq<byte>, buf: array<byte>)
    ensures written == Joined(Parts(id, body, isError)) && |written| <= buf.Length == ToolResultSize(id, body)
    ensures fresh(buf) && forall i | 0 <= i < buf.Length :: buf[i] == 0
  {
    MessageFits(id, body, isError);
    buf := new byte[ToolResultSize(id, body)](_ => 0);
    written := Fill(buf, Parts(id, body, isError));
    for i := 0 to buf.Length
      invariant forall j | 0 <= j < i :: buf[j] == 0
    {
      buf[i] := 0;
    }
  }

  method Fill(buf: array<byte>, parts: seq<seq<byte>>) returns (written: seq<byte>)
    requires |Joined(parts)| <= buf.Length
    modifies buf
    ensures written == Joined(parts)
  {
    var n: nat := 0;
    for k := 0 to |parts|
      invariant n <= buf.Length && buf[..n] == Joined(parts[..k])
    {
      assert parts[..k + 1][..k] == parts[..k];
      JoinedPrefix(parts, k + 1);
      n := Put(buf, n, parts[k]);
    }
    assert parts[..|parts|] == parts;
    written := buf[..n];
  }
}
