/** The screen of a typed-data request that is not a batch, against the message itself: what stands at each path of it
    (auth-popup/sign/consent.ts, auth-popup/sign/consent-display.ts). */
module TypedDataScreen {
  import opened Wrappers
  import opened Text
  import opened Requests
  import opened TypedDataFields
  import opened Consent
  import opened ConsentDisplay
  import opened Danger

  /** Typed data for the generic screen: it names a chain and is not the wallet's own batch. */
  predicate IsGeneric(td: TypedData) {
    td.domain.chainId.Some? && !IsAvokBatch(MessageOf(td))
  }

  function ScreenOf(k: Codec, td: TypedData): seq<Line>
    requires DecodeSignConsent(k, SignTypedData(td)).Ok?
  {
    FormatConsentDisplay(k, DecodeSignConsent(k, SignTypedData(td)).value)
  }

  /** The line of a field: its label, its value, and danger for an amount of at least 2^159. */
  function FieldLine(path: seq<Segment>, text: string): Line {
    Line(LabelOr(LabelFrom("", path)) + ": " + text, if IsUnlimitedAmount(text) then Danger else Info)
  }

  function LeafLines(leaves: seq<Leaf>): (lines: seq<Line>)
    ensures |lines| == |leaves| && forall i :: 0 <= i < |leaves| ==> lines[i] == FieldLine(leaves[i].path, leaves[i].text)
  {
    seq(|leaves|, i requires 0 <= i < |leaves| => FieldLine(leaves[i].path, leaves[i].text))
  }

  /** Typed data with no chain is refused; any other that is not a batch is described. */
  lemma GenericDecodes(k: Codec, td: TypedData)
    requires !IsAvokBatch(MessageOf(td))
    ensures DecodeSignConsent(k, SignTypedData(td)).Ok? <==> td.domain.chainId.Some?
  {
  }

  function PrimaryType(td: TypedData): string {
    if td.primaryType.Some? then td.primaryType.value else "(unnamed)"
  }

  lemma FieldsAreLeaves(message: Value)
    ensures FieldLines(FlattenFields(message, "")) == LeafLines(Leaves(message))
  {
    RowsAreLeaves(message, "");
    var rows := Rows(Leaves(message), "");
    assert forall i :: 0 <= i < |rows| ==> FieldLines(rows)[i] == FieldLine(Leaves(message)[i].path, Leaves(message)[i].text);
  }

  lemma GenericParts(k: Codec, td: TypedData)
    requires IsGeneric(td)
    ensures DecodeSignConsent(k, SignTypedData(td)).Ok?
    ensures ScreenOf(k, td) == GenericLines(GenericView(td.domain, PrimaryType(td), FlattenFields(MessageOf(td), "")))
  {
  }

  /** The whole screen: a head, and then one line for each leaf of the message, in order, and nothing after. */
  lemma ScreenIsHeadAndLeaves(k: Codec, td: TypedData) returns (head: seq<Line>)
    requires IsGeneric(td)
    ensures DecodeSignConsent(k, SignTypedData(td)).Ok?
    ensures ScreenOf(k, td) == head + LeafLines(Leaves(MessageOf(td)))
    ensures head == ReasonLines(PrimaryType(td)) + InfoLines(GenericHead(GenericView(td.domain, PrimaryType(td), [])))
  {
    GenericParts(k, td);
    FieldsAreLeaves(MessageOf(td));
    head := ReasonLines(PrimaryType(td)) + InfoLines(GenericHead(GenericView(td.domain, PrimaryType(td), [])));
  }

  /** Nothing of the message is hidden: whatever stands at any path of it has its line on the screen. */
  lemma EveryLeafIsOnScreen(k: Codec, td: TypedData, path: seq<Segment>, text: string)
    requires IsGeneric(td) && LeafAt(MessageOf(td), path, text)
    ensures DecodeSignConsent(k, SignTypedData(td)).Ok?
    ensures FieldLine(path, text) in ScreenOf(k, td)
  {
    var head := ScreenIsHeadAndLeaves(k, td);
    LeavesComplete(MessageOf(td), path, text);
    LeafLineIn(head, Leaves(MessageOf(td)), Leaf(path, text));
  }

  /** A message that is no structure at all is shown as its value. */
  lemma BareMessageIsShown(k: Codec, td: TypedData, text: string)
    requires IsGeneric(td) && MessageOf(td) == Scalar(text)
    ensures DecodeSignConsent(k, SignTypedData(td)).Ok?
    ensures Line("value: " + text, if IsUnlimitedAmount(text) then Danger else Info) in ScreenOf(k, td)
  {
    EveryLeafIsOnScreen(k, td, [], text);
    assert FieldLine([], text).text == "value" + ": " + text;
    assert "value" + ": " == "value: ";
  }

  lemma LeafLineIn(head: seq<Line>, leaves: seq<Leaf>, leaf: Leaf)
    requires leaf in leaves
    ensures FieldLine(leaf.path, leaf.text) in head + LeafLines(leaves)
  {
    var n :| 0 <= n < |leaves| && leaves[n] == leaf;
    assert (head + LeafLines(leaves))[|head| + n] == LeafLines(leaves)[n];
  }

  lemma TailAt<T>(head: seq<T>, tail: seq<T>, n: nat)
    requires n < |tail|
    ensures var all := head + tail; |all| >= |tail| && all[|all| - |tail| + n] == tail[n]
  {
  }

  /** Nothing is made up: the last lines of the screen, as many as the message has leaves, are theirs. */
  lemma EveryFieldLineIsALeaf(k: Codec, td: TypedData, n: nat)
    requires IsGeneric(td) && n < |Leaves(MessageOf(td))|
    ensures DecodeSignConsent(k, SignTypedData(td)).Ok?
    ensures var leaves := Leaves(MessageOf(td));
      var lines := ScreenOf(k, td);
      |lines| >= |leaves| && lines[|lines| - |leaves| + n] == FieldLine(leaves[n].path, leaves[n].text)
  {
    var head := ScreenIsHeadAndLeaves(k, td);
    TailAt(head, LeafLines(Leaves(MessageOf(td))), n);
  }

  /** And each leaf stands in the message, at a path of its own. */
  lemma LeavesAreApart(message: Value, n: nat)
    requires Keyed(message) && n < |Leaves(message)|
    ensures var leaf := Leaves(message)[n];
      LeafAt(message, leaf.path, leaf.text) && forall m :: 0 <= m < n ==> Leaves(message)[m].path != leaf.path
  {
    LeavesSound(message, n);
    forall m | 0 <= m < n ensures Leaves(message)[m].path != Leaves(message)[n].path { PathsDistinct(message, m, n); }
  }

  lemma FieldLineDanger(lines: seq<Line>, leaves: seq<Leaf>)
    requires lines == LeafLines(leaves)
    ensures HighestSeverity(lines) == Danger <==> exists leaf: Leaf :: leaf in leaves && IsUnlimitedAmount(leaf.text)
  {
    DangerIffSome(lines);
    if i :| 0 <= i < |lines| && lines[i].severity == Danger { assert leaves[i] in leaves; }
    if leaf: Leaf :| leaf in leaves && IsUnlimitedAmount(leaf.text) {
      var i :| 0 <= i < |leaves| && leaves[i] == leaf;
      assert lines[i].severity == Danger;
    }
  }

  lemma HeadDangerIff(td: TypedData)
    ensures HighestSeverity(ReasonLines(PrimaryType(td)) + InfoLines(GenericHead(GenericView(td.domain, PrimaryType(td), [])))) == Danger
      <==> PrimaryType(td) in {"Permit", "PermitSingle", "PermitBatch", "PermitTransferFrom", "PermitBatchTransferFrom"}
  {
    var texts := GenericHead(GenericView(td.domain, PrimaryType(td), []));
    AllInfo(InfoLines(texts));
    AppendingNeverLowers(ReasonLines(PrimaryType(td)), InfoLines(texts));
    ReasonSeverity(PrimaryType(td));
  }

  /** The screen is at danger exactly when the primary type is one of the five that let a signature spend, or somewhere in
      the message, at any depth, stands an amount of at least 2^159. */
  lemma ScreenDangerIff(k: Codec, td: TypedData)
    requires IsGeneric(td) && Keyed(MessageOf(td))
    ensures DecodeSignConsent(k, SignTypedData(td)).Ok?
    ensures HighestSeverity(ScreenOf(k, td)) == Danger
      <==> PrimaryType(td) in {"Permit", "PermitSingle", "PermitBatch", "PermitTransferFrom", "PermitBatchTransferFrom"}
           || exists path, text :: LeafAt(MessageOf(td), path, text) && IsUnlimitedAmount(text)
  {
    var head := ScreenIsHeadAndLeaves(k, td);
    HeadDangerIff(td);
    LinesDangerIff(head, MessageOf(td));
  }

  lemma LinesDangerIff(head: seq<Line>, message: Value)
    requires Keyed(message)
    ensures HighestSeverity(head + LeafLines(Leaves(message))) == Danger
      <==> HighestSeverity(head) == Danger || exists path, text :: LeafAt(message, path, text) && IsUnlimitedAmount(text)
  {
    AppendingNeverLowers(head, LeafLines(Leaves(message)));
    FieldLineDanger(LeafLines(Leaves(message)), Leaves(message));
    LeafDanger(message);
  }

  lemma LeafDanger(message: Value)
    requires Keyed(message)
    ensures (exists leaf: Leaf :: leaf in Leaves(message) && IsUnlimitedAmount(leaf.text))
      <==> exists path, text :: LeafAt(message, path, text) && IsUnlimitedAmount(text)
  {
    if leaf: Leaf :| leaf in Leaves(message) && IsUnlimitedAmount(leaf.text) {
      var n :| 0 <= n < |Leaves(message)| && Leaves(message)[n] == leaf;
      LeavesSound(message, n);
      assert LeafAt(message, leaf.path, leaf.text);
    }
    if path, text :| LeafAt(message, path, text) && IsUnlimitedAmount(text) {
      LeavesComplete(message, path, text);
      assert Leaf(path, text).text == text;
    }
  }

  /** The chain's label names its id. */
  lemma ChainNamed(id: int)
    ensures Mentions(ChainLabel(id), IntToString(id))
  {
    if id in CHAIN_NAMES {
      MentionsAt(CHAIN_NAMES[id] + " (", IntToString(id), ")");
    } else {
      MentionsAt("chain ", IntToString(id), "");
      assert "chain " + IntToString(id) + "" == "chain " + IntToString(id);
    }
  }

  lemma HeadNames(v: GenericView)
    ensures var texts := GenericHead(v);
      && "Type: " + v.primaryType in texts
      && (v.domain.chainId.Some? ==> "Chain " + ChainLabel(v.domain.chainId.value) in texts)
      && (v.domain.verifyingContract.Some? && v.domain.verifyingContract.value != "" ==>
            "Contract: " + v.domain.verifyingContract.value in texts)
      && (v.domain.name.Some? && v.domain.name.value != "" ==>
            exists i :: 0 <= i < |texts| && "From: " + v.domain.name.value <= texts[i])
  {
    var texts := GenericHead(v);
    assert texts[1] == "Type: " + v.primaryType;
    var named := if v.domain.name.Some? && v.domain.name.value != "" then 1 else 0;
    var chained := if v.domain.chainId.Some? then 1 else 0;
    if named == 1 { assert "From: " + v.domain.name.value <= texts[2]; }
    if chained == 1 { assert texts[2 + named] == "Chain " + ChainLabel(v.domain.chainId.value); }
    if v.domain.verifyingContract.Some? && v.domain.verifyingContract.value != "" {
      assert texts[2 + named + chained] == "Contract: " + v.domain.verifyingContract.value;
    }
  }

  /** The head is that of this request: its type, its chain, its contract and its name. */
  lemma HeadIsOfTheRequest(k: Codec, td: TypedData)
    requires IsGeneric(td)
    ensures DecodeSignConsent(k, SignTypedData(td)).Ok?
    ensures var lines := ScreenOf(k, td);
      && Line("Type: " + PrimaryType(td), Info) in lines
      && Line("Chain " + ChainLabel(td.domain.chainId.value), Info) in lines
      && (td.domain.verifyingContract.Some? && td.domain.verifyingContract.value != "" ==>
            Line("Contract: " + td.domain.verifyingContract.value, Info) in lines)
      && (td.domain.name.Some? && td.domain.name.value != "" ==>
            exists line: Line :: line in lines && "From: " + td.domain.name.value <= line.text)
  {
    var head := ScreenIsHeadAndLeaves(k, td);
    var v := GenericView(td.domain, PrimaryType(td), []);
    HeadNames(v);
    HeadOnScreen(ReasonLines(PrimaryType(td)), GenericHead(v), LeafLines(Leaves(MessageOf(td))));
  }

  lemma HeadOnScreen(before: seq<Line>, texts: seq<string>, after: seq<Line>)
    ensures forall i :: 0 <= i < |texts| ==> Line(texts[i], Info) in before + InfoLines(texts) + after
  {
    forall i | 0 <= i < |texts| ensures Line(texts[i], Info) in before + InfoLines(texts) + after {
      assert (before + InfoLines(texts) + after)[|before| + i] == InfoLines(texts)[i];
    }
  }
}
