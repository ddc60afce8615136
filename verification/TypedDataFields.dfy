/** EIP-712 messages as trees, and the label/value rows the generic consent view shows for them
    (auth-popup/sign/consent.ts). */
module TypedDataFields {
  import opened Wrappers
  import opened Text

  /** A message value. `Scalar` carries what `String(value)` prints. Object entries are in `Object.entries` order. */
  datatype Value =
    | Null
    | Undefined
    | Scalar(text: string)
    | List(items: seq<Value>)
    | Object(entries: seq<Entry>)

  datatype Entry = Entry(key: string, value: Value)

  datatype Row = Row(caption: string, value: string)

  function LabelOr(prefix: string): string {
    if prefix == "" then "value" else prefix
  }

  function AtIndex(prefix: string, i: nat): string {
    prefix + "[" + NatToString(i) + "]"
  }

  function AtField(prefix: string, key: string): string {
    if prefix == "" then key else prefix + "." + key
  }

  function FlattenFields(v: Value, prefix: string): seq<Row>
    decreases v, 1
  {
    match v
    case Null => [Row(LabelOr(prefix), "null")]
    case Undefined => [Row(LabelOr(prefix), "undefined")]
    case Scalar(text) => [Row(LabelOr(prefix), text)]
    case List(items) =>
      if items == [] then [Row(LabelOr(prefix), "(empty)")] else FlattenItems(items, prefix, 0)
    case Object(entries) => FlattenEntries(entries, prefix)
  }

  /** The rows of `items`, the first of which stands at index `first`. */
  function FlattenItems(items: seq<Value>, prefix: string, first: nat): seq<Row>
    decreases items, 0
  {
    if items == [] then []
    else FlattenFields(items[0], AtIndex(prefix, first)) + FlattenItems(items[1..], prefix, first + 1)
  }

  function FlattenEntries(entries: seq<Entry>, prefix: string): seq<Row>
    decreases entries, 0
  {
    if entries == [] then []
    else FlattenFields(entries[0].value, AtField(prefix, entries[0].key)) + FlattenEntries(entries[1..], prefix)
  }

  const BATCH_FIELDS := ["feeCalls", "userCalls", "nonce", "deadline"]

  function Get(entries: seq<Entry>, key: string): Option<Value> {
    if entries == [] then None
    else if entries[0].key == key then Some(entries[0].value)
    else Get(entries[1..], key)
  }

  function Keys(entries: seq<Entry>): (keys: seq<string>)
    ensures |keys| == |entries| && forall i :: 0 <= i < |keys| ==> keys[i] == entries[i].key
  {
    seq(|entries|, i requires 0 <= i < |entries| => entries[i].key)
  }

  function IsList(v: Option<Value>): bool {
    v.Some? && v.value.List?
  }

  /** Whether the bespoke batch view is used. */
  predicate IsAvokBatch(message: Value) {
    && message.Object?
    && IsList(Get(message.entries, "userCalls"))
    && IsList(Get(message.entries, "feeCalls"))
    && |Keys(message.entries)| == |BATCH_FIELDS|
    && forall f :: f in BATCH_FIELDS ==> f in Keys(message.entries)
  }

  // ---- leaves, defined without any label ----

  datatype Segment = Field(name: string) | Index(i: nat)

  /** None of a leaf: an object, or a list with items. */
  function LeafText(v: Value): Option<string> {
    match v
    case Null => Some("null")
    case Undefined => Some("undefined")
    case Scalar(text) => Some(text)
    case List(items) => if items == [] then Some("(empty)") else None
    case Object(_) => None
  }

  /** The value a path leads to. */
  function Resolve(v: Value, path: seq<Segment>): Option<Value>
    decreases |path|
  {
    if path == [] then Some(v)
    else
      match (v, path[0])
      case (List(items), Index(i)) => if i < |items| then Resolve(items[i], path[1..]) else None
      case (Object(entries), Field(name)) =>
        (match Get(entries, name) case None => None case Some(w) => Resolve(w, path[1..]))
      case _ => None
  }

  /** The message shows `text` at `path`. */
  predicate LeafAt(v: Value, path: seq<Segment>, text: string) {
    var w := Resolve(v, path);
    w.Some? && LeafText(w.value) == Some(text)
  }

  datatype Leaf = Leaf(path: seq<Segment>, text: string)

  function Leaves(v: Value): seq<Leaf>
    decreases v, 1
  {
    match v
    case List(items) => if items == [] then [Leaf([], "(empty)")] else LeavesOfItems(items, 0)
    case Object(entries) => LeavesOfEntries(entries)
    case _ => [Leaf([], LeafText(v).value)]
  }

  function Under(s: Segment, leaves: seq<Leaf>): (r: seq<Leaf>)
    ensures |r| == |leaves|
    ensures forall i :: 0 <= i < |r| ==> r[i] == Leaf([s] + leaves[i].path, leaves[i].text)
  {
    seq(|leaves|, i requires 0 <= i < |leaves| => Leaf([s] + leaves[i].path, leaves[i].text))
  }

  function LeavesOfItems(items: seq<Value>, first: nat): seq<Leaf>
    decreases items, 0
  {
    if items == [] then [] else Under(Index(first), Leaves(items[0])) + LeavesOfItems(items[1..], first + 1)
  }

  function LeavesOfEntries(entries: seq<Entry>): seq<Leaf>
    decreases entries, 0
  {
    if entries == [] then []
    else Under(Field(entries[0].key), Leaves(entries[0].value)) + LeavesOfEntries(entries[1..])
  }

  function Extend(prefix: string, s: Segment): string {
    match s
    case Field(name) => AtField(prefix, name)
    case Index(i) => AtIndex(prefix, i)
  }

  function LabelFrom(prefix: string, path: seq<Segment>): string
    decreases |path|
  {
    if path == [] then prefix else LabelFrom(Extend(prefix, path[0]), path[1..])
  }

  function Rows(leaves: seq<Leaf>, prefix: string): (rows: seq<Row>)
    ensures |rows| == |leaves|
    ensures forall i :: 0 <= i < |rows| ==> rows[i] == Row(LabelOr(LabelFrom(prefix, leaves[i].path)), leaves[i].text)
  {
    seq(|leaves|, i requires 0 <= i < |leaves| =>
      Row(LabelOr(LabelFrom(prefix, leaves[i].path)), leaves[i].text))
  }

  lemma RowsUnder(s: Segment, leaves: seq<Leaf>, prefix: string)
    ensures Rows(Under(s, leaves), prefix) == Rows(leaves, Extend(prefix, s))
  {
    var under := Under(s, leaves);
    forall i | 0 <= i < |leaves|
      ensures LabelFrom(prefix, under[i].path) == LabelFrom(Extend(prefix, s), leaves[i].path)
    {
      assert under[i].path[1..] == leaves[i].path;
    }
  }

  lemma RowsConcat(a: seq<Leaf>, b: seq<Leaf>, prefix: string)
    ensures Rows(a + b, prefix) == Rows(a, prefix) + Rows(b, prefix)
  {
  }

  /** The rows are exactly the leaves, one for one and in order. */
  lemma {:induction false} RowsAreLeaves(v: Value, prefix: string)
    ensures FlattenFields(v, prefix) == Rows(Leaves(v), prefix)
    decreases v, 1
  {
    match v
    case List(items) => if items != [] { ItemRows(items, prefix, 0); }
    case Object(entries) => EntryRows(entries, prefix);
    case _ =>
  }

  lemma {:induction false} ItemRows(items: seq<Value>, prefix: string, first: nat)
    ensures FlattenItems(items, prefix, first) == Rows(LeavesOfItems(items, first), prefix)
    decreases items, 0
  {
    if items != [] {
      RowsAreLeaves(items[0], AtIndex(prefix, first));
      ItemRows(items[1..], prefix, first + 1);
      RowsUnder(Index(first), Leaves(items[0]), prefix);
      RowsConcat(Under(Index(first), Leaves(items[0])), LeavesOfItems(items[1..], first + 1), prefix);
    }
  }

  lemma {:induction false} EntryRows(entries: seq<Entry>, prefix: string)
    ensures FlattenEntries(entries, prefix) == Rows(LeavesOfEntries(entries), prefix)
    decreases entries, 0
  {
    if entries != [] {
      var e := entries[0];
      RowsAreLeaves(e.value, AtField(prefix, e.key));
      EntryRows(entries[1..], prefix);
      RowsUnder(Field(e.key), Leaves(e.value), prefix);
      RowsConcat(Under(Field(e.key), Leaves(e.value)), LeavesOfEntries(entries[1..]), prefix);
    }
  }

  // ---- well-formed messages: plain keys, no key twice ----

  /** A name that is not empty and has no character of the label syntax. Every identifier is one. */
  predicate IsPlainName(s: string) {
    s != [] && NoSeparator(s)
  }

  predicate DistinctKeys(entries: seq<Entry>) {
    forall i, j :: 0 <= i < j < |entries| ==> entries[i].key != entries[j].key
  }

  /** No object of the message has a key twice, as in any JavaScript object. */
  predicate Keyed(v: Value) {
    match v
    case List(items) => forall i :: 0 <= i < |items| ==> Keyed(items[i])
    case Object(entries) => DistinctKeys(entries) && forall i :: 0 <= i < |entries| ==> Keyed(entries[i].value)
    case _ => true
  }

  predicate PlainNames(v: Value) {
    match v
    case List(items) => forall i :: 0 <= i < |items| ==> PlainNames(items[i])
    case Object(entries) => forall i :: 0 <= i < |entries| ==> IsPlainName(entries[i].key) && PlainNames(entries[i].value)
    case _ => true
  }

  predicate WellFormed(v: Value) { Keyed(v) && PlainNames(v) }

  predicate PlainSegment(s: Segment) { s.Index? || IsPlainName(s.name) }

  predicate PlainPath(path: seq<Segment>) {
    forall i :: 0 <= i < |path| ==> PlainSegment(path[i])
  }

  lemma PlainHead(path: seq<Segment>)
    requires PlainPath(path) && path != []
    ensures PlainSegment(path[0]) && PlainPath(path[1..])
  {
  }

  lemma SamePath(p: seq<Segment>, q: seq<Segment>)
    requires p != [] && q != [] && p[0] == q[0] && p[1..] == q[1..]
    ensures p == q
  {
    assert p == [p[0]] + p[1..] && q == [q[0]] + q[1..];
  }

  // ---- the leaf list is complete, sound and free of repetition ----

  lemma {:induction false} GetAt(entries: seq<Entry>, i: nat)
    requires DistinctKeys(entries) && i < |entries|
    ensures Get(entries, entries[i].key) == Some(entries[i].value)
  {
    if i > 0 { GetAt(entries[1..], i - 1); }
  }

  lemma {:induction false} GetSome(entries: seq<Entry>, key: string) returns (i: nat)
    requires Get(entries, key).Some?
    ensures i < |entries| && entries[i].key == key && Get(entries, key) == Some(entries[i].value)
  {
    if entries[0].key == key {
      i := 0;
    } else {
      i := GetSome(entries[1..], key);
      i := i + 1;
    }
  }

  /** Every listed leaf is what its path leads to, over plain segments if the names are plain. */
  lemma {:induction false} LeavesSound(v: Value, n: nat)
    requires Keyed(v) && n < |Leaves(v)|
    ensures var leaf := Leaves(v)[n]; LeafAt(v, leaf.path, leaf.text) && (PlainNames(v) ==> PlainPath(leaf.path))
    decreases v, 1
  {
    match v
    case List(items) =>
      if items != [] {
        var k := ItemLeaf(items, 0, n);
        var leaf := Leaves(v)[n];
        assert leaf.path[1..] == leaf.path[1..];
      }
    case Object(entries) =>
      var k := EntryLeaf(entries, n);
      GetAt(entries, k);
    case _ =>
  }

  lemma {:induction false} ItemLeaf(items: seq<Value>, first: nat, n: nat) returns (k: nat)
    requires n < |LeavesOfItems(items, first)| && forall i :: 0 <= i < |items| ==> Keyed(items[i])
    ensures k < |items|
    ensures var leaf := LeavesOfItems(items, first)[n];
      leaf.path != [] && leaf.path[0] == Index(first + k)
      && LeafAt(items[k], leaf.path[1..], leaf.text) && (PlainNames(items[k]) ==> PlainPath(leaf.path))
    decreases items, 0
  {
    var here := Under(Index(first), Leaves(items[0]));
    var leaf := LeavesOfItems(items, first)[n];
    if n < |here| {
      k := 0;
      LeavesSound(items[0], n);
      assert leaf == here[n] && leaf.path[1..] == Leaves(items[0])[n].path;
    } else {
      assert leaf == LeavesOfItems(items[1..], first + 1)[n - |here|];
      k := ItemLeaf(items[1..], first + 1, n - |here|);
      k := k + 1;
    }
  }

  lemma {:induction false} EntryLeaf(entries: seq<Entry>, n: nat) returns (k: nat)
    requires n < |LeavesOfEntries(entries)|
    requires forall i :: 0 <= i < |entries| ==> Keyed(entries[i].value)
    ensures k < |entries|
    ensures var leaf := LeavesOfEntries(entries)[n];
      leaf.path != [] && leaf.path[0] == Field(entries[k].key)
      && LeafAt(entries[k].value, leaf.path[1..], leaf.text)
      && (IsPlainName(entries[k].key) && PlainNames(entries[k].value) ==> PlainPath(leaf.path))
    decreases entries, 0
  {
    var here := Under(Field(entries[0].key), Leaves(entries[0].value));
    var leaf := LeavesOfEntries(entries)[n];
    if n < |here| {
      k := 0;
      LeavesSound(entries[0].value, n);
      assert leaf == here[n] && leaf.path[1..] == Leaves(entries[0].value)[n].path;
    } else {
      assert leaf == LeavesOfEntries(entries[1..])[n - |here|];
      k := EntryLeaf(entries[1..], n - |here|);
      k := k + 1;
    }
  }

  lemma LeafHere(v: Value, text: string)
    requires LeafAt(v, [], text)
    ensures Leaves(v) == [Leaf([], text)]
  {
  }

  lemma HeadAndTail(path: seq<Segment>)
    requires path != []
    ensures [path[0]] + path[1..] == path
  {
  }

  /** Nothing is left out: every path to a scalar, null or empty list is listed. */
  lemma {:induction false} LeavesComplete(v: Value, path: seq<Segment>, text: string)
    requires LeafAt(v, path, text)
    ensures Leaf(path, text) in Leaves(v)
    decreases |path|
  {
    if path == [] {
      LeafHere(v, text);
    } else {
      HeadAndTail(path);
      match v
      case List(items) =>
        var i := path[0].i;
        LeavesComplete(items[i], path[1..], text);
        ItemListed(items, 0, i, Leaf(path[1..], text));
      case Object(entries) =>
        var k := GetSome(entries, path[0].name);
        LeavesComplete(entries[k].value, path[1..], text);
        EntryListed(entries, k, Leaf(path[1..], text));
    }
  }

  lemma {:induction false} ItemListed(items: seq<Value>, first: nat, i: nat, leaf: Leaf)
    requires i < |items| && leaf in Leaves(items[i])
    ensures Leaf([Index(first + i)] + leaf.path, leaf.text) in LeavesOfItems(items, first)
  {
    if i == 0 {
      var n :| 0 <= n < |Leaves(items[0])| && Leaves(items[0])[n] == leaf;
      assert Under(Index(first), Leaves(items[0]))[n] == Leaf([Index(first)] + leaf.path, leaf.text);
    } else {
      ItemListed(items[1..], first + 1, i - 1, leaf);
    }
  }

  lemma {:induction false} EntryListed(entries: seq<Entry>, k: nat, leaf: Leaf)
    requires k < |entries| && leaf in Leaves(entries[k].value)
    ensures Leaf([Field(entries[k].key)] + leaf.path, leaf.text) in LeavesOfEntries(entries)
  {
    if k == 0 {
      var n :| 0 <= n < |Leaves(entries[0].value)| && Leaves(entries[0].value)[n] == leaf;
      assert Under(Field(entries[0].key), Leaves(entries[0].value))[n] == Leaf([Field(entries[0].key)] + leaf.path, leaf.text);
    } else {
      EntryListed(entries[1..], k - 1, leaf);
    }
  }

  /** No path is listed twice. */
  lemma {:induction false} PathsDistinct(v: Value, m: nat, n: nat)
    requires Keyed(v) && m < n < |Leaves(v)|
    ensures Leaves(v)[m].path != Leaves(v)[n].path
    decreases v, 1
  {
    match v
    case List(items) => if items != [] { ItemPathsDistinct(items, 0, m, n); }
    case Object(entries) => EntryPathsDistinct(entries, m, n);
    case _ =>
  }

  lemma {:induction false} ItemPathsDistinct(items: seq<Value>, first: nat, m: nat, n: nat)
    requires m < n < |LeavesOfItems(items, first)| && forall i :: 0 <= i < |items| ==> Keyed(items[i])
    ensures LeavesOfItems(items, first)[m].path != LeavesOfItems(items, first)[n].path
    decreases items, 0
  {
    var here := Under(Index(first), Leaves(items[0]));
    var rest := LeavesOfItems(items[1..], first + 1);
    assert LeavesOfItems(items, first) == here + rest;
    if n < |here| {
      PathsDistinct(items[0], m, n);
      assert here[m].path[1..] == Leaves(items[0])[m].path && here[n].path[1..] == Leaves(items[0])[n].path;
    } else if m < |here| {
      var k := ItemLeaf(items[1..], first + 1, n - |here|);
      assert here[m].path[0] == Index(first);
    } else {
      ItemPathsDistinct(items[1..], first + 1, m - |here|, n - |here|);
    }
  }

  lemma {:induction false} EntryPathsDistinct(entries: seq<Entry>, m: nat, n: nat)
    requires m < n < |LeavesOfEntries(entries)| && DistinctKeys(entries)
    requires forall i :: 0 <= i < |entries| ==> Keyed(entries[i].value)
    ensures LeavesOfEntries(entries)[m].path != LeavesOfEntries(entries)[n].path
    decreases entries, 0
  {
    var here := Under(Field(entries[0].key), Leaves(entries[0].value));
    var rest := LeavesOfEntries(entries[1..]);
    assert LeavesOfEntries(entries) == here + rest;
    if n < |here| {
      PathsDistinct(entries[0].value, m, n);
      assert here[m].path[1..] == Leaves(entries[0].value)[m].path && here[n].path[1..] == Leaves(entries[0].value)[n].path;
    } else if m < |here| {
      var k := EntryLeaf(entries[1..], n - |here|);
      assert here[m].path[0] == Field(entries[0].key);
      assert entries[1..][k] == entries[k + 1];
    } else {
      EntryPathsDistinct(entries[1..], m - |here|, n - |here|);
    }
  }

  // ---- a label names one path only ----

  /** What a segment adds to a label that already has a beginning. */
  function Suffix(s: Segment): string {
    match s
    case Field(name) => "." + name
    case Index(i) => "[" + NatToString(i) + "]"
  }

  function Suffixes(path: seq<Segment>): string
    decreases |path|
  {
    if path == [] then "" else Suffix(path[0]) + Suffixes(path[1..])
  }

  lemma ExtendIsSuffix(prefix: string, s: Segment)
    requires prefix != ""
    ensures Extend(prefix, s) == prefix + Suffix(s)
  {
    match s
    case Field(name) => Associate(prefix, ".", name);
    case Index(i) =>
      Associate(prefix, "[", NatToString(i));
      Associate(prefix, "[" + NatToString(i), "]");
  }

  lemma {:induction false} LabelIsConcat(prefix: string, path: seq<Segment>)
    requires prefix != ""
    ensures LabelFrom(prefix, path) == prefix + Suffixes(path)
    decreases |path|
  {
    if path != [] {
      ExtendIsSuffix(prefix, path[0]);
      LabelIsConcat(Extend(prefix, path[0]), path[1..]);
      Associate(prefix, Suffix(path[0]), Suffixes(path[1..]));
    }
  }

  predicate Separates(c: char) {
    c == '.' || c == '[' || c == ']'
  }

  predicate NoSeparator(s: string) {
    forall i :: 0 <= i < |s| ==> !Separates(s[i])
  }

  /** Text free of separators ends where the first separator stands. */
  lemma WordsSplitOneWay(a: string, r: string, b: string, t: string)
    requires NoSeparator(a) && NoSeparator(b) && a + r == b + t
    requires (r == [] || Separates(r[0])) && (t == [] || Separates(t[0]))
    ensures a == b && r == t
  {
    var whole := a + r;
    assert forall i :: 0 <= i < |a| ==> whole[i] == a[i];
    assert forall i :: 0 <= i < |b| ==> whole[i] == b[i];
    assert r != [] ==> whole[|a|] == r[0];
    assert t != [] ==> whole[|b|] == t[0];
    assert |a| == |b|;
    assert whole[..|a|] == a && whole[..|b|] == b && whole[|a|..] == r && whole[|b|..] == t;
  }

  function Word(s: Segment): string {
    match s case Field(name) => name case Index(i) => NatToString(i)
  }

  function Closing(s: Segment): string {
    if s.Index? then "]" else ""
  }

  lemma SuffixesStart(path: seq<Segment>)
    ensures path != [] ==> Suffixes(path) != [] && Suffixes(path)[0] == (if path[0].Index? then '[' else '.')
  {
  }

  lemma WordsArePlain(s: Segment)
    requires PlainSegment(s)
    ensures NoSeparator(Word(s)) && Word(s) != []
  {
    if s.Index? {
      assert forall i :: 0 <= i < |Word(s)| ==> IsDigit(Word(s)[i]);
    }
  }

  /** Equal text after a common opening: same word, same rest. */
  lemma SameSegment(s: Segment, rest: seq<Segment>, t: Segment, rest': seq<Segment>)
    requires PlainSegment(s) && PlainSegment(t) && s.Index? == t.Index?
    requires Word(s) + (Closing(s) + Suffixes(rest)) == Word(t) + (Closing(t) + Suffixes(rest'))
    ensures s == t && Suffixes(rest) == Suffixes(rest')
  {
    WordsArePlain(s);
    WordsArePlain(t);
    SuffixesStart(rest);
    SuffixesStart(rest');
    WordsSplitOneWay(Word(s), Closing(s) + Suffixes(rest), Word(t), Closing(t) + Suffixes(rest'));
    assert Suffixes(rest) == (Closing(s) + Suffixes(rest))[|Closing(s)|..];
    assert Suffixes(rest') == (Closing(t) + Suffixes(rest'))[|Closing(t)|..];
    if s.Index? {
      NatRoundTrip(s.i);
      NatRoundTrip(t.i);
    }
  }

  lemma {:induction false} SuffixesInjective(p: seq<Segment>, q: seq<Segment>)
    requires PlainPath(p) && PlainPath(q) && Suffixes(p) == Suffixes(q)
    ensures p == q
    decreases |p|
  {
    SuffixesStart(p);
    SuffixesStart(q);
    if p != [] && q != [] {
      OpenSuffix(p);
      OpenSuffix(q);
      PlainHead(p);
      PlainHead(q);
      SameSegment(p[0], p[1..], q[0], q[1..]);
      SuffixesInjective(p[1..], q[1..]);
      SamePath(p, q);
    }
  }

  lemma OpenSuffix(p: seq<Segment>)
    requires p != []
    ensures Suffixes(p)[1..] == Word(p[0]) + (Closing(p[0]) + Suffixes(p[1..]))
  {
    var s := p[0];
    var rest := Suffixes(p[1..]);
    assert Suffixes(p) == (if s.Index? then "[" else ".") + (Word(s) + (Closing(s) + rest));
  }

  lemma RootSegment(s: Segment)
    ensures Extend("", s) == (if s.Index? then "[" else "") + (Word(s) + Closing(s))
  {
    if s.Index? {
      Associate("[", NatToString(s.i), "]");
      assert "" + "[" == "[";
    } else {
      assert s.name + "" == s.name && "" + s.name == s.name;
    }
  }

  /** The label of a whole path, from the empty prefix. */
  lemma LabelShape(p: seq<Segment>)
    requires p != [] && PlainPath(p)
    ensures LabelFrom("", p) ==
      (if p[0].Index? then "[" else "") + (Word(p[0]) + (Closing(p[0]) + Suffixes(p[1..])))
  {
    PlainHead(p);
    WordsArePlain(p[0]);
    RootSegment(p[0]);
    LabelIsConcat(Extend("", p[0]), p[1..]);
    var opening := if p[0].Index? then "[" else "";
    Associate(opening, Word(p[0]) + Closing(p[0]), Suffixes(p[1..]));
    Associate(Word(p[0]), Closing(p[0]), Suffixes(p[1..]));
  }

  lemma SameStart(p: seq<Segment>, q: seq<Segment>)
    requires p != [] && q != [] && PlainPath(p) && PlainPath(q) && LabelFrom("", p) == LabelFrom("", q)
    ensures p[0].Index? == q[0].Index?
    ensures Word(p[0]) + (Closing(p[0]) + Suffixes(p[1..])) == Word(q[0]) + (Closing(q[0]) + Suffixes(q[1..]))
  {
    LabelShape(p);
    LabelShape(q);
    PlainHead(p);
    PlainHead(q);
    WordsArePlain(p[0]);
    WordsArePlain(q[0]);
    SplitOpening(p[0].Index?, Word(p[0]) + (Closing(p[0]) + Suffixes(p[1..])),
      q[0].Index?, Word(q[0]) + (Closing(q[0]) + Suffixes(q[1..])));
  }

  lemma SplitOpening(b: bool, x: string, c: bool, y: string)
    requires x != [] && y != [] && x[0] != '[' && y[0] != '['
    requires (if b then "[" else "") + x == (if c then "[" else "") + y
    ensures b == c && x == y
  {
    var l := (if b then "[" else "") + x;
    assert l[0] == (if b then '[' else x[0]);
    assert l[0] == (if c then '[' else y[0]);
    assert l[(if b then 1 else 0)..] == x;
    assert l[(if c then 1 else 0)..] == y;
  }

  lemma LabelNotEmpty(p: seq<Segment>)
    requires p != [] && PlainPath(p)
    ensures LabelFrom("", p) != ""
  {
    LabelShape(p);
    PlainHead(p);
    WordsArePlain(p[0]);
  }

  lemma LabelInjective(p: seq<Segment>, q: seq<Segment>)
    requires PlainPath(p) && PlainPath(q) && LabelFrom("", p) == LabelFrom("", q)
    ensures p == q
  {
    if p != [] { LabelNotEmpty(p); }
    if q != [] { LabelNotEmpty(q); }
    if p != [] && q != [] {
      SameStart(p, q);
      PlainHead(p);
      PlainHead(q);
      SameSegment(p[0], p[1..], q[0], q[1..]);
      SuffixesInjective(p[1..], q[1..]);
      SamePath(p, q);
    }
  }

  // ---- the main results ----

  /** Losslessness, forward: row n shows leaf n, and two different rows never carry the same label. */
  lemma RowsFaithful(v: Value, m: nat, n: nat)
    requires WellFormed(v) && m < n < |FlattenFields(v, "")|
    ensures |FlattenFields(v, "")| == |Leaves(v)|
    ensures FlattenFields(v, "")[m].caption != FlattenFields(v, "")[n].caption
  {
    RowsAreLeaves(v, "");
    PathsDistinct(v, m, n);
    LeavesSound(v, m);
    LeavesSound(v, n);
    var p := Leaves(v)[m].path;
    var q := Leaves(v)[n].path;
    assert v.List? || v.Object?;
    RootedPath(v, m);
    RootedPath(v, n);
    LabelNotEmpty(p);
    LabelNotEmpty(q);
    if LabelFrom("", p) == LabelFrom("", q) { LabelInjective(p, q); }
  }

  lemma RootedPath(v: Value, n: nat)
    requires WellFormed(v) && n < |Leaves(v)| && (v.Object? || (v.List? && v.items != []))
    ensures Leaves(v)[n].path != []
  {
    LeavesSound(v, n);
  }

  /** Losslessness, backward: two struct messages shown by the same rows agree at every leaf. */
  lemma RowsDetermineLeaves(v: Value, w: Value, path: seq<Segment>, text: string)
    requires WellFormed(v) && WellFormed(w) && v.Object? && w.Object?
    requires FlattenFields(v, "") == FlattenFields(w, "")
    requires LeafAt(v, path, text)
    ensures LeafAt(w, path, text)
  {
    RowsAreLeaves(v, "");
    RowsAreLeaves(w, "");
    LeavesComplete(v, path, text);
    var n :| 0 <= n < |Leaves(v)| && Leaves(v)[n] == Leaf(path, text);
    assert Rows(Leaves(v), "")[n] == Rows(Leaves(w), "")[n];
    LeavesSound(v, n);
    LeavesSound(w, n);
    RootedPath(v, n);
    RootedPath(w, n);
    var q := Leaves(w)[n].path;
    LabelNotEmpty(path);
    LabelNotEmpty(q);
    LabelInjective(path, q);
  }

  /** Plain keys are needed: a dot inside a key makes two leaves share a label. */
  lemma DottedKeyCollides()
    ensures var v := Object([Entry("a.b", Scalar("1")), Entry("a", Object([Entry("b", Scalar("2"))]))]);
      FlattenFields(v, "") == [Row("a.b", "1"), Row("a.b", "2")]
  {
    var inner := [Entry("b", Scalar("2"))];
    assert inner[1..] == [];
    assert FlattenEntries(inner, "a") == [Row("a.b", "2")] by {
      assert AtField("a", "b") == "a.b";
    }
    var outer := [Entry("a.b", Scalar("1")), Entry("a", Object(inner))];
    assert outer[1..] == [Entry("a", Object(inner))];
    assert FlattenEntries(outer[1..], "") == [Row("a.b", "2")];
  }

  lemma {:induction false} HasKey(entries: seq<Entry>, key: string)
    ensures Get(entries, key).Some? <==> key in Keys(entries)
  {
    if entries != [] {
      HasKey(entries[1..], key);
      assert Keys(entries) == [entries[0].key] + Keys(entries[1..]);
    }
  }

  lemma {:induction false} DistinctCount(keys: seq<string>)
    requires forall i, j :: 0 <= i < j < |keys| ==> keys[i] != keys[j]
    ensures |(set k | k in keys)| == |keys|
  {
    if keys != [] {
      var n := |keys| - 1;
      DistinctCount(keys[..n]);
      assert (set k | k in keys) == (set k | k in keys[..n]) + {keys[n]};
    }
  }

  /** The bespoke view is used exactly when the keys are the four batch fields and both call fields are lists, so it
      never hides a field that it does not know. */
  lemma BatchViewIsExact(message: Value)
    requires message.Object? && DistinctKeys(message.entries)
    ensures IsAvokBatch(message) <==>
      && (set k | k in Keys(message.entries)) == {"feeCalls", "userCalls", "nonce", "deadline"}
      && IsList(Get(message.entries, "userCalls"))
      && IsList(Get(message.entries, "feeCalls"))
  {
    var keys := Keys(message.entries);
    var present := set k | k in keys;
    var batch := {"feeCalls", "userCalls", "nonce", "deadline"};
    DistinctCount(keys);
    assert BATCH_FIELDS[0] == "feeCalls" && BATCH_FIELDS[1] == "userCalls" && BATCH_FIELDS[2] == "nonce" && BATCH_FIELDS[3] == "deadline";
    assert forall f :: f in BATCH_FIELDS <==> f in batch;
    FourNames();
    if IsAvokBatch(message) {
      assert batch <= present;
      SameSize(batch, present);
    }
  }

  lemma FourNames()
    ensures |{"feeCalls", "userCalls", "nonce", "deadline"}| == 4
  {
    assert "feeCalls"[0] == 'f' && "userCalls"[0] == 'u' && "nonce"[0] == 'n' && "deadline"[0] == 'd';
    assert |{"feeCalls"}| == 1;
    assert |{"feeCalls"} + {"userCalls"}| == 2;
    assert |{"feeCalls"} + {"userCalls"} + {"nonce"}| == 3;
    assert {"feeCalls", "userCalls", "nonce", "deadline"} == {"feeCalls"} + {"userCalls"} + {"nonce"} + {"deadline"};
  }

  lemma SameSize(a: set<string>, b: set<string>)
    requires a <= b && |a| == |b|
    ensures a == b
  {
    assert |b - a| == |b| - |a|;
    assert b == a + (b - a);
  }
}
