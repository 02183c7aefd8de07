/** JSON documents as trees, their compact text, and the folding of over-long string values. */
module Json {
  import opened Text

  datatype Json =
    | Null
    | Bool(b: bool)
    | Number(lexeme: string)
    | String(s: Str)
    | Array(items: Items)
    | Object(fields: Fields)

  datatype Items = NoItem | Item(head: Json, rest: Items)

  datatype Fields = NoField | Field(key: string, value: Json, others: Fields)

  function Max(a: nat, b: nat): nat { if a >= b then a else b }

  // ---------- compact text ----------

  const HEX: string := "0123456789abcdef"

  /** Characters that a JSON string literal must escape. */
  function EscapeChar(c: char): (r: string)
    ensures |r| >= 1
    ensures c >= ' ' && c != '"' && c != '\\' ==> r == [c]
  {
    if c == '"' then "\\\""
    else if c == '\\' then "\\\\"
    else if c == '\n' then "\\n"
    else if c == '\r' then "\\r"
    else if c == '\t' then "\\t"
    else if c as int == 8 then "\\b"
    else if c as int == 12 then "\\f"
    else if c < ' ' then "\\u00" + [HEX[c as int / 16], HEX[c as int % 16]]
    else [c]
  }

  function Escape(s: string): (r: string)
    ensures |r| >= |s|
  {
    if s == [] then "" else Escape(s[..|s| - 1]) + EscapeChar(s[|s| - 1])
  }

  function Quote(s: string): string { "\"" + Escape(s) + "\"" }

  /** The compact text of a document. */
  function Render(v: Json): string
  {
    match v
    case Null => "null"
    case Bool(b) => if b then "true" else "false"
    case Number(lexeme) => lexeme
    case String(s) => Quote(s)
    case Array(items) => "[" + RenderItems(items) + "]"
    case Object(fields) => "{" + RenderFields(fields) + "}"
  }

  function RenderItems(items: Items): string
  {
    match items
    case NoItem => ""
    case Item(v, NoItem) => Render(v)
    case Item(v, rest) => Render(v) + "," + RenderItems(rest)
  }

  function RenderFields(fields: Fields): string
  {
    match fields
    case NoField => ""
    case Field(k, v, NoField) => Quote(k) + ":" + Render(v)
    case Field(k, v, rest) => Quote(k) + ":" + Render(v) + "," + RenderFields(rest)
  }

  // ---------- reading the text ----------

  function HexValue(c: char): nat
  {
    if '0' <= c <= '9' then c as int - '0' as int else if 'a' <= c <= 'f' then c as int - 'a' as int + 10 else 0
  }

  /** The character that an escape sequence stands for, and its length. */
  function Unescaped(s: string): (char, nat)
    requires s != ""
  {
    if s[0] != '\\' || |s| < 2 then (s[0], 1)
    else if s[1] == 'n' then ('\n', 2)
    else if s[1] == 'r' then ('\r', 2)
    else if s[1] == 't' then ('\t', 2)
    else if s[1] == 'b' then (8 as char, 2)
    else if s[1] == 'f' then (12 as char, 2)
    else if s[1] == 'u' && |s| >= 6 then ((HexValue(s[4]) * 16 + HexValue(s[5])) as char, 6)
    else (s[1], 2)
  }

  function Unescape(s: string): string
    decreases |s|
  {
    if s == "" then ""
    else
      var (c, n) := Unescaped(s);
      [c] + Unescape(s[n..])
  }

  lemma HexReads(n: nat)
    requires n < 16
    ensures HexValue(HEX[n]) == n
  {
  }

  lemma EscapeCharReads(c: char, rest: string)
    ensures Unescape(EscapeChar(c) + rest) == [c] + Unescape(rest)
  {
    hide HexValue;
    var s := EscapeChar(c) + rest;
    if c < ' ' {
      HexReads(c as int / 16);
      HexReads(c as int % 16);
    }
    assert Unescaped(s) == (c, |EscapeChar(c)|);
    assert s[|EscapeChar(c)|..] == rest;
  }

  lemma {:induction false} EscapeReadsBefore(t: string, rest: string)
    ensures Unescape(Escape(t) + rest) == t + Unescape(rest)
    decreases |t|
  {
    hide EscapeChar, Unescape;
    if t == "" {
      assert "" + rest == rest;
    } else {
      var front, c := t[..|t| - 1], t[|t| - 1];
      EscapeReadsBefore(front, EscapeChar(c) + rest);
      EscapeCharReads(c, rest);
      assert Escape(front) + (EscapeChar(c) + rest) == Escape(t) + rest;
      assert front + ([c] + Unescape(rest)) == t + Unescape(rest);
    }
  }

  /** A printed string reads back as itself. */
  lemma EscapeReads(t: string)
    ensures Unescape(Escape(t)) == t
  {
    EscapeReadsBefore(t, "");
    assert Escape(t) + "" == Escape(t);
  }

  /** Scalars are printed as they are, strings quoted. */
  lemma ScalarsRender(x: string, s: Str)
    ensures Render(Null) == "null" && Render(Bool(true)) == "true" && Render(Bool(false)) == "false"
    ensures Render(Number(x)) == x && Render(String(s)) == "\"" + Escape(s) + "\""
  {
    hide Escape;
  }

  /** Elements and fields are printed in order, without white space. */
  lemma ArrayRenders(a: Json, b: Json)
    ensures Render(Array(NoItem)) == "[]" && Render(Array(Item(a, Item(b, NoItem)))) == "[" + (Render(a) + "," + Render(b)) + "]"
  {
    var last := Item(b, NoItem);
    assert RenderItems(last) == Render(b);
    assert RenderItems(Item(a, last)) == Render(a) + "," + RenderItems(last);
  }

  lemma ObjectRenders(k: string, a: Json, l: string, b: Json)
    ensures Render(Object(NoField)) == "{}"
    ensures Render(Object(Field(k, a, Field(l, b, NoField)))) ==
      "{" + (Quote(k) + ":" + Render(a) + "," + (Quote(l) + ":" + Render(b))) + "}"
    ensures Quote(k) == "\"" + Escape(k) + "\""
  {
    hide Escape;
    var last := Field(l, b, NoField);
    assert RenderFields(last) == Quote(l) + ":" + Render(b);
    assert RenderFields(Field(k, a, last)) == Quote(k) + ":" + Render(a) + "," + RenderFields(last);
  }

  // ---------- longest string value ----------

  function Longest(v: Json): nat
  {
    match v
    case String(s) => |s|
    case Array(items) => LongestItem(items)
    case Object(fields) => LongestField(fields)
    case _ => 0
  }

  function LongestItem(items: Items): nat
  {
    match items
    case NoItem => 0
    case Item(v, rest) => Max(Longest(v), LongestItem(rest))
  }

  function LongestField(fields: Fields): nat
  {
    match fields
    case NoField => 0
    case Field(_, v, rest) => Max(Longest(v), LongestField(rest))
  }

  // ---------- folding ----------

  function Marker(n: nat): (r: Str)
    requires n <= USIZE_MAX
    ensures |r| <= 39
  {
    UsizeDigits(n);
    ArgumentMarker(n)
  }

  /** Replace every string value longer than `max` characters by its marker. */
  function Shrink(v: Json, max: nat): Json
  {
    match v
    case String(s) => if |s| > max then String(Marker(|s|)) else v
    case Array(items) => Array(ShrinkItems(items, max))
    case Object(fields) => Object(ShrinkFields(fields, max))
    case _ => v
  }

  function ShrinkItems(items: Items, max: nat): Items
  {
    match items
    case NoItem => NoItem
    case Item(v, rest) => Item(Shrink(v, max), ShrinkItems(rest, max))
  }

  function ShrinkFields(fields: Fields, max: nat): Fields
  {
    match fields
    case NoField => NoField
    case Field(k, v, rest) => Field(k, Shrink(v, max), ShrinkFields(rest, max))
  }

  /** Whether the folding pass replaces anything. */
  predicate Hit(v: Json, max: nat)
  {
    match v
    case String(s) => |s| > max
    case Array(items) => HitItem(items, max)
    case Object(fields) => HitField(fields, max)
    case _ => false
  }

  predicate HitItem(items: Items, max: nat)
  {
    match items
    case NoItem => false
    case Item(v, rest) => HitItem(rest, max) || Hit(v, max)
  }

  predicate HitField(fields: Fields, max: nat)
  {
    match fields
    case NoField => false
    case Field(_, v, rest) => HitField(rest, max) || Hit(v, max)
  }

  // ---------- what folding keeps ----------

  /** The string values of a document, left to right. */
  function Leaves(v: Json): seq<Str>
  {
    match v
    case String(s) => [s]
    case Array(items) => ItemLeaves(items)
    case Object(fields) => FieldLeaves(fields)
    case _ => []
  }

  function ItemLeaves(items: Items): seq<Str>
  {
    match items
    case NoItem => []
    case Item(v, rest) => Leaves(v) + ItemLeaves(rest)
  }

  function FieldLeaves(fields: Fields): seq<Str>
  {
    match fields
    case NoField => []
    case Field(_, v, rest) => Leaves(v) + FieldLeaves(rest)
  }

  /** A document with every string value blanked: keys, nesting and other scalars remain. */
  function Skeleton(v: Json): Json
  {
    match v
    case String(_) => String("")
    case Array(items) => Array(ItemSkeleton(items))
    case Object(fields) => Object(FieldSkeleton(fields))
    case _ => v
  }

  function ItemSkeleton(items: Items): Items
  {
    match items
    case NoItem => NoItem
    case Item(v, rest) => Item(Skeleton(v), ItemSkeleton(rest))
  }

  function FieldSkeleton(fields: Fields): Fields
  {
    match fields
    case NoField => NoField
    case Field(k, v, rest) => Field(k, Skeleton(v), FieldSkeleton(rest))
  }

  /** Leaf by leaf, `after` is `before` with the long strings replaced by their markers. */
  ghost predicate LeavesFolded(before: seq<Str>, after: seq<Str>, max: nat)
  {
    |after| == |before| &&
    forall i :: 0 <= i < |before| ==>
      after[i] == if |before[i]| > max then Marker(|before[i]|) else before[i]
  }

  lemma LeavesFoldedConcat(a: seq<Str>, a': seq<Str>, b: seq<Str>, b': seq<Str>, max: nat)
    requires LeavesFolded(a, a', max) && LeavesFolded(b, b', max)
    ensures LeavesFolded(a + b, a' + b', max)
  {
    forall i | 0 <= i < |a + b|
      ensures (a' + b')[i] == if |(a + b)[i]| > max then Marker(|(a + b)[i]|) else (a + b)[i]
    {
      if i >= |a| { assert (a + b)[i] == b[i - |a|] && (a' + b')[i] == b'[i - |a|]; }
    }
  }

  // ---------- theorems ----------

  lemma {:induction false} ShrinkKeepsTree(v: Json, max: nat)
    ensures Skeleton(Shrink(v, max)) == Skeleton(v)
    ensures LeavesFolded(Leaves(v), Leaves(Shrink(v, max)), max)
    decreases v
  {
    match v
    case Array(items) => ShrinkKeepsItems(items, max);
    case Object(fields) => ShrinkKeepsFields(fields, max);
    case _ =>
  }

  lemma {:induction false} ShrinkKeepsItems(items: Items, max: nat)
    ensures ItemSkeleton(ShrinkItems(items, max)) == ItemSkeleton(items)
    ensures LeavesFolded(ItemLeaves(items), ItemLeaves(ShrinkItems(items, max)), max)
    decreases items
  {
    match items
    case NoItem =>
    case Item(v, rest) =>
      ShrinkKeepsTree(v, max);
      ShrinkKeepsItems(rest, max);
      LeavesFoldedConcat(Leaves(v), Leaves(Shrink(v, max)), ItemLeaves(rest), ItemLeaves(ShrinkItems(rest, max)), max);
  }

  lemma {:induction false} ShrinkKeepsFields(fields: Fields, max: nat)
    ensures FieldSkeleton(ShrinkFields(fields, max)) == FieldSkeleton(fields)
    ensures LeavesFolded(FieldLeaves(fields), FieldLeaves(ShrinkFields(fields, max)), max)
    decreases fields
  {
    match fields
    case NoField =>
    case Field(_, v, rest) =>
      ShrinkKeepsTree(v, max);
      ShrinkKeepsFields(rest, max);
      LeavesFoldedConcat(Leaves(v), Leaves(Shrink(v, max)), FieldLeaves(rest), FieldLeaves(ShrinkFields(rest, max)), max);
  }

  /** A pass replaces something exactly when some string is over the limit; otherwise the
      document is unchanged. */
  lemma HitIffTooLong(v: Json, max: nat)
    ensures Hit(v, max) <==> Longest(v) > max
    ensures !Hit(v, max) ==> Shrink(v, max) == v
    decreases v
  {
    match v
    case Array(items) => HitItemIff(items, max);
    case Object(fields) => HitFieldIff(fields, max);
    case _ =>
  }

  lemma HitItemIff(items: Items, max: nat)
    ensures HitItem(items, max) <==> LongestItem(items) > max
    ensures !HitItem(items, max) ==> ShrinkItems(items, max) == items
    decreases items
  {
    match items
    case NoItem =>
    case Item(v, rest) => HitIffTooLong(v, max); HitItemIff(rest, max);
  }

  lemma HitFieldIff(fields: Fields, max: nat)
    ensures HitField(fields, max) <==> LongestField(fields) > max
    ensures !HitField(fields, max) ==> ShrinkFields(fields, max) == fields
    decreases fields
  {
    match fields
    case NoField =>
    case Field(_, v, rest) => HitIffTooLong(v, max); HitFieldIff(rest, max);
  }

  /** With a limit that leaves room for a marker, folding leaves no string over the limit,
      so a second pass finds nothing. */
  lemma {:induction false} ShrinkReachesLimit(v: Json, max: nat)
    requires max >= 39
    ensures Longest(Shrink(v, max)) <= max
    ensures Longest(Shrink(v, max)) <= Longest(v)
    decreases v
  {
    match v
    case Array(items) => ShrinkItemsReachLimit(items, max);
    case Object(fields) => ShrinkFieldsReachLimit(fields, max);
    case _ =>
  }

  lemma {:induction false} ShrinkItemsReachLimit(items: Items, max: nat)
    requires max >= 39
    ensures LongestItem(ShrinkItems(items, max)) <= max
    ensures LongestItem(ShrinkItems(items, max)) <= LongestItem(items)
    decreases items
  {
    match items
    case NoItem =>
    case Item(v, rest) => ShrinkReachesLimit(v, max); ShrinkItemsReachLimit(rest, max);
  }

  lemma {:induction false} ShrinkFieldsReachLimit(fields: Fields, max: nat)
    requires max >= 39
    ensures LongestField(ShrinkFields(fields, max)) <= max
    ensures LongestField(ShrinkFields(fields, max)) <= LongestField(fields)
    decreases fields
  {
    match fields
    case NoField =>
    case Field(_, v, rest) => ShrinkReachesLimit(v, max); ShrinkFieldsReachLimit(rest, max);
  }

  lemma {:induction false} PlainNeedsNoEscape(s: string)
    requires forall i :: 0 <= i < |s| ==> s[i] >= ' ' && s[i] != '"' && s[i] != '\\'
    ensures Escape(s) == s
  {
    if s == [] {
    } else {
      assert s == s[..|s| - 1] + [s[|s| - 1]];
      PlainNeedsNoEscape(s[..|s| - 1]);
    }
  }

  lemma {:induction false} DecimalIsPlain(n: nat)
    ensures forall i :: 0 <= i < |Decimal(n)| ==> '0' <= Decimal(n)[i] <= '9'
  {
    if n >= 10 { DecimalIsPlain(n / 10); }
  }

  /** A marker prints as itself between quotes. */
  lemma MarkerPrintsPlain(n: nat)
    requires n <= USIZE_MAX
    ensures |Quote(Marker(n))| == |Marker(n)| + 2
  {
    DecimalIsPlain(n);
    PlainNeedsNoEscape(ArgumentMarker(n));
  }

  /** Folding never lengthens the compact text, and shortens it whenever it replaces something. */
  lemma {:induction false} ShrinkShortens(v: Json, max: nat)
    requires max >= 39
    ensures |Render(Shrink(v, max))| <= |Render(v)|
    ensures Hit(v, max) ==> |Render(Shrink(v, max))| < |Render(v)|
    decreases v
  {
    match v
    case String(s) => if |s| > max { MarkerPrintsPlain(|s|); }
    case Array(items) => ShrinkItemsShortens(items, max);
    case Object(fields) => ShrinkFieldsShortens(fields, max);
    case _ =>
  }

  lemma {:induction false} ShrinkItemsShortens(items: Items, max: nat)
    requires max >= 39
    ensures |RenderItems(ShrinkItems(items, max))| <= |RenderItems(items)|
    ensures HitItem(items, max) ==> |RenderItems(ShrinkItems(items, max))| < |RenderItems(items)|
    decreases items
  {
    match items
    case NoItem =>
    case Item(v, rest) => ShrinkShortens(v, max); ShrinkItemsShortens(rest, max);
  }

  lemma {:induction false} ShrinkFieldsShortens(fields: Fields, max: nat)
    requires max >= 39
    ensures |RenderFields(ShrinkFields(fields, max))| <= |RenderFields(fields)|
    ensures HitField(fields, max) ==> |RenderFields(ShrinkFields(fields, max))| < |RenderFields(fields)|
    decreases fields
  {
    match fields
    case NoField =>
    case Field(_, v, rest) => ShrinkShortens(v, max); ShrinkFieldsShortens(rest, max);
  }

  /** Every string value is inside the compact text, quotes included. */
  lemma {:induction false} LongestFitsText(v: Json)
    ensures Longest(v) <= |Render(v)|
    decreases v
  {
    match v
    case Array(items) => LongestItemFits(items);
    case Object(fields) => LongestFieldFits(fields);
    case _ =>
  }

  lemma {:induction false} LongestItemFits(items: Items)
    ensures LongestItem(items) <= |RenderItems(items)|
    decreases items
  {
    match items
    case NoItem =>
    case Item(v, rest) => LongestFitsText(v); LongestItemFits(rest);
  }

  lemma {:induction false} LongestFieldFits(fields: Fields)
    ensures LongestField(fields) <= |RenderFields(fields)|
    decreases fields
  {
    match fields
    case NoField =>
    case Field(_, v, rest) => LongestFitsText(v); LongestFieldFits(rest);
  }

  // ---------- exactly how much folding saves ----------

  /** The characters saved on one string value. */
  function SavedOn(s: Str, max: nat): nat
    requires max >= 39
  {
    if |s| > max then |Escape(s)| - |Marker(|s|)| else 0
  }

  /** The characters saved on the string values that folding replaces. */
  function Saved(leaves: seq<Str>, max: nat): nat
    requires max >= 39
  {
    if leaves == [] then 0
    else SavedOn(leaves[0], max) + Saved(leaves[1..], max)
  }

  lemma {:induction false} SavedConcat(a: seq<Str>, b: seq<Str>, max: nat)
    requires max >= 39
    ensures Saved(a + b, max) == Saved(a, max) + Saved(b, max)
  {
    hide SavedOn;
    if a == [] {
      assert a + b == b;
    } else {
      SavedConcat(a[1..], b, max);
      assert (a + b)[1..] == a[1..] + b;
    }
  }

  /** The compact text loses exactly what is saved on the long strings: nothing else changes. */
  lemma {:induction false} ShrinkSaves(v: Json, max: nat)
    requires max >= 39
    ensures |Render(Shrink(v, max))| + Saved(Leaves(v), max) == |Render(v)|
    decreases v
  {
    match v
    case String(s) => if |s| > max { MarkerPrintsPlain(|s|); }
    case Array(items) => ShrinkItemsSaves(items, max);
    case Object(fields) => ShrinkFieldsSaves(fields, max);
    case _ =>
  }

  lemma {:induction false} ShrinkItemsSaves(items: Items, max: nat)
    requires max >= 39
    ensures |RenderItems(ShrinkItems(items, max))| + Saved(ItemLeaves(items), max) == |RenderItems(items)|
    decreases items
  {
    match items
    case NoItem =>
    case Item(v, rest) =>
      ShrinkSaves(v, max);
      ShrinkItemsSaves(rest, max);
      SavedConcat(Leaves(v), ItemLeaves(rest), max);
  }

  lemma {:induction false} ShrinkFieldsSaves(fields: Fields, max: nat)
    requires max >= 39
    ensures |RenderFields(ShrinkFields(fields, max))| + Saved(FieldLeaves(fields), max) == |RenderFields(fields)|
    decreases fields
  {
    match fields
    case NoField =>
    case Field(k, v, rest) =>
      ShrinkSaves(v, max);
      ShrinkFieldsSaves(rest, max);
      SavedConcat(Leaves(v), FieldLeaves(rest), max);
  }

  // ---------- the long strings ----------

  ghost predicate AnyLong(leaves: seq<Str>, max: nat)
  {
    exists l :: 0 <= l < |leaves| && |leaves[l]| > max
  }

  lemma {:induction false} NothingSaved(leaves: seq<Str>, max: nat)
    requires max >= 39 && !AnyLong(leaves, max)
    ensures Saved(leaves, max) == 0
  {
    if leaves == [] {
    } else {
      assert |leaves[0]| <= max;
      var rest := leaves[1..];
      forall l | 0 <= l < |rest| ensures |rest[l]| <= max { assert rest[l] == leaves[l + 1]; }
      NothingSaved(rest, max);
    }
  }

  /** Folding hits a document exactly when one of its string values is over the limit. */
  lemma HitIffAnyLong(v: Json, max: nat)
    requires max >= 39
    ensures Hit(v, max) <==> AnyLong(Leaves(v), max)
  {
    hide Leaves, Shrink, Hit, Render;
    HitIffTooLong(v, max);
    ShrinkKeepsTree(v, max);
    ShrinkShortens(v, max);
    ShrinkSaves(v, max);
    if !AnyLong(Leaves(v), max) { NothingSaved(Leaves(v), max); }
  }
}
