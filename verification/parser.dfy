/**
 * The tokenizer/tree-builder loop of parser.go. `parse` reads one rune at a
 * time, dispatches on the current state, grows the tag-name buffer and
 * appends nodes to the root list. Only seven states have handlers; every
 * other state ignores the rune it reads.
 *
 * The loop is given twice: as the function `Run` over a `Machine` value,
 * which the properties are proved about, and as the method `Parser.Parse`
 * over objects, which is proved to end in the state `Run` computes.
 */
module Parsing {
  import opened Nodes
  import opened Scanning

  /** `state`: a Go int; the tokenizer states are numbered in declaration order. */
  type State = int

  const Data: State := 0
  const RCDATA: State := 1
  const RAWTEXT: State := 2
  const ScriptData: State := 3
  const PLAINTEXT: State := 4
  const TagOpen: State := 5
  const EndTagOpen: State := 6
  const TagName: State := 7
  const RCDATALessThanSign: State := 8
  const RCDATAEndTagOpen: State := 9
  const RCDATAEndTagName: State := 10
  const RAWTEXTLessThanSign: State := 11
  const RAWTEXTEndTagOpen: State := 12
  const RAWTEXTEndTagName: State := 13
  const ScriptDataLessThanSign: State := 14
  const ScriptDataEndTagOpen: State := 15
  const ScriptDataEndTagName: State := 16
  const ScriptDataEscapeStart: State := 17
  const ScriptDataEscapeStartDash: State := 18
  const ScriptDataEscaped: State := 19
  const ScriptDataEscapedDash: State := 20
  const ScriptDataEscapedDashDash: State := 21
  const ScriptDataEscapedLessThanSign: State := 22
  const ScriptDataEscapedEndTagOpen: State := 23
  const ScriptDataEscapedEndTagName: State := 24
  const ScriptDataDoubleEscapeStart: State := 25
  const ScriptDataDoubleEscaped: State := 26
  const ScriptDataDoubleEscapedDash: State := 27
  const ScriptDataDoubleEscapedDashDash: State := 28
  const ScriptDataDoubleEscapedLessThanSign: State := 29
  const ScriptDataDoubleEscapeEnd: State := 30
  const BeforeAttributeName: State := 31
  const AttributeName: State := 32
  const AfterAttributeName: State := 33
  const BeforeAttributeValue: State := 34
  const AttributeValueDoubleQuoted: State := 35
  const AttributeValueSingleQuoted: State := 36
  const AttributeValueUnquoted: State := 37
  const AfterAttributeValueQuoted: State := 38
  const SelfClosingStartTag: State := 39
  const BogusComment: State := 40
  const MarkupDeclarationOpen: State := 41
  const CommentStart: State := 42
  const CommentStartDash: State := 43
  const Comment: State := 44
  const CommentEndDash: State := 45
  const CommentEnd: State := 46
  const CommentEndBang: State := 47
  const DOCTYPE: State := 48
  const BeforeDOCTYPEName: State := 49
  const DOCTYPEName: State := 50
  const AfterDOCTYPEName: State := 51
  const AfterDOCTYPEPublicKeyword: State := 52
  const BeforeDOCTYPEPublicIdentifier: State := 53
  const DOCTYPEPublicIdentifierDoubleQuoted: State := 54
  const DOCTYPEPublicIdentifierSingleQuoted: State := 55
  const AfterDOCTYPEPublicIdentifier: State := 56
  const BetweenDOCTYPEPublicAndSystemIdentifiers: State := 57
  const AfterDOCTYPESystemKeyword: State := 58
  const BeforeDOCTYPESystemIdentifier: State := 59
  const DOCTYPESystemIdentifierDoubleQuoted: State := 60
  const DOCTYPESystemIdentifierSingleQuoted: State := 61
  const AfterDOCTYPESystemIdentifier: State := 62
  const BogusDOCTYPE: State := 63
  const CDATASection: State := 64
  const CDATASectionBracket: State := 65
  const CDATASectionEnd: State := 66
  const CharacterReference: State := 67
  const NamedCharacterReference: State := 68
  const AmbiguousAmpersand: State := 69
  const NumericCharacterReference: State := 70
  const HexadecimalCharacterReferenceStart: State := 71
  const DecimalCharacterReferenceStart: State := 72
  const HexadecimalCharacterReference: State := 73
  const DecimalCharacterReference: State := 74
  const NumericCharacterReferenceEnd: State := 75

  /** `mode`: a Go int; the insertion modes are numbered in declaration order. The parser sets one and never reads it. */
  type Mode = int

  const Initial: Mode := 0
  const BeforeHTML: Mode := 1
  const BeforeHead: Mode := 2
  const InHead: Mode := 3
  const InHeadNoscript: Mode := 4
  const AfterHead: Mode := 5
  const InBody: Mode := 6
  const Text: Mode := 7
  const InTable: Mode := 8
  const InTableText: Mode := 9
  const InCaption: Mode := 10
  const InColumnGroup: Mode := 11
  const InTableBody: Mode := 12
  const InRow: Mode := 13
  const InCell: Mode := 14
  const InSelect: Mode := 15
  const InSelectInTable: Mode := 16
  const InTemplate: Mode := 17
  const AfterBody: Mode := 18
  const InFrameset: Mode := 19
  const AfterFrameset: Mode := 20
  const AfterAfterBody: Mode := 21
  const AfterAfterFrameset: Mode := 22

  /** The states that have a case in the dispatch of `parse`. */
  predicate Handled(s: State)
  {
    s in {Data, TagOpen, TagName, MarkupDeclarationOpen, DOCTYPE, BeforeDOCTYPEName, DOCTYPEName}
  }

  /**
   * Everything `parse` works on at the head of its loop: the reader, the
   * state, the name buffer `p.b` and the children of the root list.
   */
  datatype Machine = Machine(cur: Cursor, state: State, buf: string, nodes: seq<Node>)
  {
    predicate Valid()
    {
      cur.Valid()
    }
  }

  /** A new parser over `input`, together with the empty root list `parse` starts from. */
  function Fresh(input: seq<char>): (m: Machine)
    ensures m.Valid() && m.cur == Open(input) && m.state == Data && m.buf == [] && m.nodes == []
    ensures Step(m).1 <==> input == []
  {
    Machine(Open(input), Data, [], [])
  }

  /**
   * The DOCTYPE-name case, entered directly or by falling through from the
   * before-DOCTYPE-name case: `>` returns to data; anything else (a space
   * first moving to after-DOCTYPE-name) appends a document node named by
   * `scanIdent`.
   */
  function DoctypeName(m: Machine, x: char): (m': Machine)
    requires m.Valid()
    ensures m'.Valid() && m'.cur.input == m.cur.input && m'.buf == m.buf
    ensures x == '>' <==> m'.nodes == m.nodes
  {
    if x == '>' then m.(state := Data)
    else
      var (ident, cur) := m.cur.ScanIdent();
      m.(cur := cur,
         state := if x == ' ' then AfterDOCTYPEName else m.state,
         nodes := m.nodes + [Document(ident)])
  }

  /**
   * One pass through the `switch p.state` of `parse`, for the rune `x` that
   * has just been read (so `m.cur` is already past it).
   */
  function Dispatch(m: Machine, x: char): (m': Machine)
    requires m.Valid()
    ensures m'.Valid() && m'.cur.input == m.cur.input
    ensures m.nodes <= m'.nodes && |m'.nodes| <= |m.nodes| + 1
    ensures !Handled(m.state) ==> m' == m
  {
    if m.state == Data then
      if x == '<' then m.(state := TagOpen) else m
    else if m.state == TagOpen then
      if x == '!' then m.(state := MarkupDeclarationOpen)
      else if x == '/' then m.(state := EndTagOpen)
      else m.(cur := m.cur.Unread(), state := TagName)
    else if m.state == TagName then
      if x == ' ' then m.(state := BeforeAttributeName)
      else if x == '/' then m.(state := SelfClosingStartTag)
      else if x == '>' then m.(nodes := m.nodes + [Element(m.buf)], buf := [], state := Data)
      else m.(buf := m.buf + [x])
    else if m.state == MarkupDeclarationOpen then
      var (ident, cur) := m.cur.ScanIdent();
      if ident == "DOCTYPE" then m.(cur := cur, state := DOCTYPE) else m.(cur := cur)
    else if m.state == DOCTYPE then
      if x == ' ' || x == '>' then m.(state := BeforeDOCTYPEName) else m
    else if m.state == BeforeDOCTYPEName then
      if x == ' ' then m else DoctypeName(m.(state := DOCTYPEName), x)
    else if m.state == DOCTYPEName then
      DoctypeName(m, x)
    else
      // every other state ignores the rune
      m
  }

  /**
   * One iteration of the loop: read a rune; at the end of the input report
   * `stop` and leave the buffer and the nodes as they are (nothing is
   * flushed); otherwise dispatch on the state.
   */
  function Step(m: Machine): (res: (Machine, bool))
    requires m.Valid()
    ensures res.0.Valid() && res.0.cur.input == m.cur.input
    ensures res.1 <==> m.cur.pos == |m.cur.input|
    ensures res.1 ==> res.0 == m.(cur := m.cur.(canUnread := false))
    ensures m.nodes <= res.0.nodes
  {
    var (tok, cur) := m.cur.Read();
    match tok
    case EOF => (m.(cur := cur), true)
    case Ch(x) => (Dispatch(m.(cur := cur), x), false)
  }

  /**
   * What one iteration keeps: the reader stays valid over the same input,
   * nodes are only appended, and a stop happens only at the end of the input.
   */
  predicate Advances(m: Machine, res: (Machine, bool))
  {
    res.0.Valid() && res.0.cur.input == m.cur.input && m.nodes <= res.0.nodes &&
    (res.1 ==> res.0.cur.pos == |m.cur.input|)
  }

  /** An iteration body that is defined on every valid machine and advances it. */
  ghost predicate Steady(step: Machine --> (Machine, bool))
  {
    forall m: Machine {:trigger step.requires(m)} {:trigger step(m)} | m.Valid() :: step.requires(m) && Advances(m, step(m))
  }

  /**
   * The loop of `parse` with body `step`, run for at most `fuel` iterations.
   * The flag says whether it reached the end of the input; the loop of the
   * source has no such bound and, on some inputs, never reaches it.
   */
  function Loop(step: Machine --> (Machine, bool), m: Machine, fuel: nat): (res: (Machine, bool))
    requires Steady(step) && m.Valid()
    ensures Advances(m, res)
    decreases fuel
  {
    if fuel == 0 then (m, false)
    else
      var (next, stop) := step(m);
      if stop then (next, true) else Loop(step, next, fuel - 1)
  }

  /** The iteration of `parse` is a loop body `Loop` accepts. */
  lemma StepSteady()
    ensures Steady(Step)
  {
  }

  /** The loop of `parse`: `Loop` with `Step` as its body. */
  function Run(m: Machine, fuel: nat): (res: (Machine, bool))
    requires m.Valid()
    ensures Advances(m, res)
  {
    StepSteady();
    Loop(Step, m, fuel)
  }

  /** One iteration of `Loop`: it ends when the body stops, and otherwise goes on from the machine the body produced. */
  lemma LoopUnfold(step: Machine --> (Machine, bool), m: Machine, fuel: nat)
    requires Steady(step) && m.Valid() && fuel > 0
    ensures step.requires(m) && step(m).0.Valid()
    ensures Loop(step, m, fuel) == if step(m).1 then step(m) else Loop(step, step(m).0, fuel - 1)
  {
  }

  /** `LoopUnfold` for the loop of `parse`. */
  lemma RunUnfold(m: Machine, fuel: nat)
    requires m.Valid() && fuel > 0
    ensures Run(m, fuel) == if Step(m).1 then Step(m) else Run(Step(m).0, fuel - 1)
  {
    StepSteady();
    LoopUnfold(Step, m, fuel);
  }

  /**
   * The run from `start` that has reached `m` with `fuel` left goes on as
   * the run from the machine one `Step` after `m`, or ends with it.
   */
  lemma RunAdvance(start: Machine, total: nat, m: Machine, fuel: nat, next: Machine, stop: bool)
    requires start.Valid() && m.Valid() && fuel > 0
    requires Run(start, total) == Run(m, fuel) && Step(m) == (next, stop)
    ensures next.Valid()
    ensures stop ==> Run(start, total) == (next, true)
    ensures !stop ==> Run(start, total) == Run(next, fuel - 1)
  {
    RunUnfold(m, fuel);
  }

  /** `parser`: the scanner, the name buffer, the current state and the (unused) insertion mode. */
  class Parser {
    const s: Scanner
    var b: string
    var state: State
    var mode: Mode

    ghost predicate Valid()
      reads this, s
    {
      s.Valid()
    }

    /** The parser's part of a `Machine`, with `nodes` as the root list's children. */
    ghost function Snapshot(nodes: seq<Node>): Machine
      reads this, s
    {
      Machine(s.View(), state, b, nodes)
    }

    /** `newParser`: a reader at the start of the input, state data, mode initial, an empty buffer. */
    constructor (input: seq<char>)
      ensures Valid() && fresh(s)
      ensures Snapshot([]) == Fresh(input)
      ensures state == Data && mode == Initial && b == []
    {
      s := new Scanner(input);
      b := [];
      state := Data;
      mode := Initial;
    }

    /** `consume` writes the rune to the buffer. */
    method Consume(r: char)
      modifies this
      ensures b == old(b) + [r]
      ensures state == old(state) && mode == old(mode)
    {
      b := b + [r];
    }

    /** `reset` empties the buffer. */
    method Reset()
      modifies this
      ensures b == []
      ensures state == old(state) && mode == old(mode)
    {
      b := [];
    }

    /** The `switch p.state` of `parse` for the rune `x` just read; `root` is the tree's root list. */
    method Handle(x: char, root: ListNode)
      requires Valid() && root.Valid()
      modifies this, s, root
      ensures Valid() && root.Valid() && mode == old(mode)
      ensures Snapshot(root.children) == Dispatch(old(Snapshot(root.children)), x)
    {
      if state == Data {
        if x == '<' {
          state := TagOpen;
        }
      } else if state == TagOpen {
        if x == '!' {
          state := MarkupDeclarationOpen;
        } else if x == '/' {
          state := EndTagOpen;
        } else {
          s.Unread();
          state := TagName;
        }
      } else if state == TagName {
        if x == ' ' {
          state := BeforeAttributeName;
        } else if x == '/' {
          state := SelfClosingStartTag;
        } else if x == '>' {
          root.Append(Element(b));
          Reset();
          state := Data;
        } else {
          Consume(x);
        }
      } else if state == MarkupDeclarationOpen {
        var ident := s.ScanIdent();
        if ident == "DOCTYPE" {
          state := DOCTYPE;
        }
      } else if state == DOCTYPE {
        if x == ' ' || x == '>' {
          state := BeforeDOCTYPEName;
        }
      } else if state == BeforeDOCTYPEName || state == DOCTYPEName {
        if state == BeforeDOCTYPEName && x == ' ' {
          // a space before the name is ignored
        } else {
          // before-DOCTYPE-name falls through to DOCTYPE-name with the same rune
          state := DOCTYPEName;
          if x == '>' {
            state := Data;
          } else {
            if x == ' ' {
              state := AfterDOCTYPEName;
            }
            var ident := s.ScanIdent();
            root.Append(Document(ident));
          }
        }
      }
      // every other state ignores the rune
    }

    /** One iteration of the loop of `parse`: `scan` a rune, stop at EOF, else dispatch on it. */
    method Iterate(root: ListNode) returns (eof: bool)
      requires Valid() && root.Valid()
      modifies this, s, root
      ensures Valid() && root.Valid() && mode == old(mode)
      ensures (Snapshot(root.children), eof) == Step(old(Snapshot(root.children)))
    {
      var token := s.Scan();
      if token == EOF {
        eof := true;
      } else {
        eof := false;
        Handle(token.c, root);
      }
    }

    /**
     * `parse`, bounded to `fuel` iterations of its loop. The returned tree's
     * root holds exactly the nodes `Run` computes, the parser ends in the
     * state `Run` computes, and `finished` tells whether the end of the
     * input was reached within the bound.
     */
    method Parse(fuel: nat) returns (t: Tree, finished: bool)
      requires Valid()
      modifies this, s
      ensures Valid() && mode == old(mode)
      ensures fresh(t) && t.root != null && fresh(t.root) && t.root.Valid()
      ensures (Snapshot(t.root.children), finished) == Run(old(Snapshot([])), fuel)
    {
      ghost var start := Snapshot([]);
      t := new Tree();
      var root := t.NewList();
      t.root := root;
      finished := false;
      var n := fuel;
      ghost var m := start;
      while !finished && n > 0
        invariant Valid() && mode == old(mode)
        invariant t.root == root && fresh(root) && root.Valid()
        invariant m == Snapshot(root.children) && m.Valid()
        invariant finished ==> Run(start, fuel) == (m, true)
        invariant !finished ==> Run(start, fuel) == Run(m, n)
        decreases n
      {
        ghost var m0 := m;
        finished := Iterate(root);
        m := Snapshot(root.children);
        RunAdvance(start, fuel, m0, n, m, finished);
        n := n - 1;
      }
    }
  }
}
