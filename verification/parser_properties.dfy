/**
 * What the loop of `parse` does, state by state, over whole runs, and on
 * the inputs where it never stops.
 */
module ParserProperties {
  import opened Nodes
  import opened Scanning
  import opened Parsing

  /** The machine once the rune at its position has been read and nothing else done. */
  function Advanced(m: Machine): Machine
    requires m.Valid() && m.cur.pos < |m.cur.input|
  {
    m.(cur := Cursor(m.cur.input, m.cur.pos + 1, true))
  }

  // ---------------------------------------------------------------------------
  // One iteration, state by state

  /** In data, `<` moves to tag-open and every other rune is dropped. */
  lemma DataStep(m: Machine)
    requires m.Valid() && m.state == Data && m.cur.pos < |m.cur.input|
    ensures var x := m.cur.input[m.cur.pos];
      Step(m) == (Advanced(m).(state := if x == '<' then TagOpen else Data), false)
  {
  }

  /**
   * In tag-open, `!` moves to markup-declaration-open and `/` to
   * end-tag-open; any other rune is pushed back and the state becomes
   * tag-name.
   */
  lemma TagOpenStep(m: Machine)
    requires m.Valid() && m.state == TagOpen && m.cur.pos < |m.cur.input|
    ensures var x := m.cur.input[m.cur.pos];
      && (x == '!' ==> Step(m) == (Advanced(m).(state := MarkupDeclarationOpen), false))
      && (x == '/' ==> Step(m) == (Advanced(m).(state := EndTagOpen), false))
      && (x != '!' && x != '/' ==>
            Step(m) == (m.(cur := m.cur.(canUnread := false), state := TagName), false))
  {
  }

  /**
   * The rune tag-open pushes back is the first one tag-name consumes: the
   * next iteration does exactly what tag-name would have done with it.
   */
  lemma TagOpenReconsumes(m: Machine)
    requires m.Valid() && m.state == TagOpen && m.cur.pos < |m.cur.input|
    requires m.cur.input[m.cur.pos] != '!' && m.cur.input[m.cur.pos] != '/'
    ensures Step(m).0.Valid()
    ensures Step(Step(m).0) == Step(m.(state := TagName))
  {
  }

  /**
   * In tag-name, a space or `/` only changes the state; `>` appends one
   * element node holding the buffer, empties the buffer and returns to data;
   * every other rune is appended to the buffer as it is.
   */
  lemma TagNameStep(m: Machine)
    requires m.Valid() && m.state == TagName && m.cur.pos < |m.cur.input|
    ensures var x := m.cur.input[m.cur.pos];
      && (x == ' ' ==> Step(m) == (Advanced(m).(state := BeforeAttributeName), false))
      && (x == '/' ==> Step(m) == (Advanced(m).(state := SelfClosingStartTag), false))
      && (x == '>' ==>
            Step(m) == (Advanced(m).(nodes := m.nodes + [Element(m.buf)], buf := [], state := Data), false))
      && (x != ' ' && x != '/' && x != '>' ==> Step(m) == (Advanced(m).(buf := m.buf + [x]), false))
  {
  }

  /** `e` ends the maximal run of non-action runes of `input` that starts at `p`. */
  predicate RunEndsAt(input: seq<char>, p: nat, e: nat)
  {
    p <= e <= |input| && ActionFree(input[p..e]) && (e == |input| || IsAction(input[e]))
  }

  /** Every position starts a run with an end: the one `scanIdent` stops at. */
  lemma RunEndExists(input: seq<char>, p: nat) returns (e: nat)
    requires p <= |input|
    ensures RunEndsAt(input, p, e)
  {
    var c := Cursor(input, p, false);
    ScanIdentSpec(c);
    e := c.ScanIdent().1.pos;
  }

  /**
   * Markup-declaration-open calls `scanIdent`, which pushes back the rune
   * just read and collects the run from there: the reader is left at the
   * end of that run, and the state becomes DOCTYPE exactly when the run is
   * "DOCTYPE". Buffer and nodes are untouched.
   */
  lemma MarkupDeclarationStep(m: Machine, e: nat)
    requires m.Valid() && m.state == MarkupDeclarationOpen && m.cur.pos < |m.cur.input|
    requires RunEndsAt(m.cur.input, m.cur.pos, e)
    ensures var input := m.cur.input;
      Step(m) == (m.(cur := Cursor(input, e, false),
                     state := if input[m.cur.pos..e] == "DOCTYPE" then DOCTYPE else MarkupDeclarationOpen), false)
  {
    ScanIdentStopsAt(Advanced(m).cur, e);
  }

  /**
   * The run at `p` is "DOCTYPE" exactly when the input holds "DOCTYPE", in
   * upper case, at `p`, followed by an action rune or the end of the input.
   */
  lemma DoctypeKeyword(input: seq<char>, p: nat, e: nat)
    requires RunEndsAt(input, p, e)
    ensures input[p..e] == "DOCTYPE" <==>
      p + 7 <= |input| && input[p..p + 7] == "DOCTYPE" && (p + 7 == |input| || IsAction(input[p + 7]))
  {
  }

  /** In DOCTYPE, a space or `>` moves to before-DOCTYPE-name; every other rune is dropped. */
  lemma DoctypeStep(m: Machine)
    requires m.Valid() && m.state == DOCTYPE && m.cur.pos < |m.cur.input|
    ensures var x := m.cur.input[m.cur.pos];
      Step(m) == (Advanced(m).(state := if x == ' ' || x == '>' then BeforeDOCTYPEName else DOCTYPE), false)
  {
  }

  /**
   * In before-DOCTYPE-name a space is skipped; any other rune is handled as
   * DOCTYPE-name handles it.
   */
  lemma BeforeDoctypeNameStep(m: Machine)
    requires m.Valid() && m.state == BeforeDOCTYPEName && m.cur.pos < |m.cur.input|
    ensures m.cur.input[m.cur.pos] == ' ' ==> Step(m) == (Advanced(m), false)
    ensures m.cur.input[m.cur.pos] != ' ' ==> Step(m) == Step(m.(state := DOCTYPEName))
  {
  }

  /**
   * In DOCTYPE-name, `>` returns to data without appending anything. Any
   * other rune is pushed back by `scanIdent`, and one document node is
   * appended, named by the run of non-action runes starting at that rune;
   * the reader is left at the end of the run, and a space also moves to
   * after-DOCTYPE-name. The buffer is never touched.
   */
  lemma DoctypeNameStep(m: Machine, e: nat)
    requires m.Valid() && m.state == DOCTYPEName && m.cur.pos < |m.cur.input|
    requires RunEndsAt(m.cur.input, m.cur.pos, e)
    ensures var x, p, input := m.cur.input[m.cur.pos], m.cur.pos, m.cur.input;
      && (x == '>' ==> Step(m) == (Advanced(m).(state := Data), false))
      && (x != '>' ==>
            Step(m) == (m.(cur := Cursor(input, e, false),
                           state := if x == ' ' then AfterDOCTYPEName else DOCTYPEName,
                           nodes := m.nodes + [Document(input[p..e])]), false))
  {
    if m.cur.input[m.cur.pos] != '>' {
      ScanIdentStopsAt(Advanced(m).cur, e);
    }
  }

  /** A state without a case reads the rune and ignores it. */
  lemma UnhandledStep(m: Machine)
    requires m.Valid() && !Handled(m.state) && m.cur.pos < |m.cur.input|
    ensures Step(m) == (Advanced(m), false)
  {
  }

  // ---------------------------------------------------------------------------
  // Whole runs

  /** Running for `a + b` iterations is running for `a`, then for `b` more unless the end was reached. */
  lemma {:induction false} LoopSplit(step: Machine --> (Machine, bool), m: Machine, a: nat, b: nat)
    requires Steady(step) && m.Valid()
    ensures Loop(step, m, a + b) ==
      if Loop(step, m, a).1 then Loop(step, m, a) else Loop(step, Loop(step, m, a).0, b)
    decreases a
  {
    if a > 0 {
      LoopUnfold(step, m, a);
      LoopUnfold(step, m, a + b);
      if !step(m).1 {
        LoopSplit(step, step(m).0, a - 1, b);
      }
    }
  }

  /** `LoopSplit` for the loop of `parse`. */
  lemma RunSplit(m: Machine, a: nat, b: nat)
    requires m.Valid()
    ensures Run(m, a + b) == if Run(m, a).1 then Run(m, a) else Run(Run(m, a).0, b)
  {
    StepSteady();
    LoopSplit(Step, m, a, b);
  }

  /** Once a run has reached the end of the input, more fuel changes nothing. */
  lemma RunStable(m: Machine, fuel: nat, more: nat)
    requires m.Valid() && Run(m, fuel).1 && fuel <= more
    ensures Run(m, more) == Run(m, fuel)
  {
    RunSplit(m, fuel, more - fuel);
  }

  /**
   * A state without a case consumes every remaining rune and ignores it: the
   * run ends at the end of the input with the buffer and nodes unchanged.
   */
  lemma {:induction false} UnhandledIgnoresRest(m: Machine, fuel: nat)
    requires m.Valid() && !Handled(m.state)
    requires fuel > |m.cur.input| - m.cur.pos
    ensures Run(m, fuel) == (m.(cur := Cursor(m.cur.input, |m.cur.input|, false)), true)
    decreases fuel
  {
    if m.cur.pos < |m.cur.input| {
      UnhandledStep(m);
      UnhandledIgnoresRest(Advanced(m), fuel - 1);
    }
  }

  /** A name that could have been collected in tag-name: no space, `/` or `>`. */
  predicate TagNameSafe(s: string)
  {
    forall i | 0 <= i < |s| :: s[i] != ' ' && s[i] != '/' && s[i] != '>'
  }

  /** What the parser may emit: element names from tag-name, document names from `scanIdent`. */
  predicate NodeSafe(n: Node)
  {
    match n
    case Element(d) => TagNameSafe(d)
    case Document(d) => ActionFree(d)
  }

  /** The buffer could have been collected in tag-name, and every node appended so far is one the parser may emit. */
  predicate Safe(m: Machine)
  {
    TagNameSafe(m.buf) && forall k | 0 <= k < |m.nodes| :: NodeSafe(m.nodes[k])
  }

  /** One iteration keeps the machine safe. */
  lemma StepKeepsSafe(m: Machine)
    requires m.Valid() && Safe(m)
    ensures Safe(Step(m).0)
  {
    if m.cur.pos < |m.cur.input| && (m.state == DOCTYPEName || m.state == BeforeDOCTYPEName) {
      var e := RunEndExists(m.cur.input, m.cur.pos);
      if m.state == DOCTYPEName {
        DoctypeNameStep(m, e);
      } else if m.cur.input[m.cur.pos] != ' ' {
        BeforeDoctypeNameStep(m);
        DoctypeNameStep(m.(state := DOCTYPEName), e);
      }
    }
  }

  /**
   * Every element node a run appends is named without a space, `/` or `>`,
   * and every document node is named without an action rune; the buffer
   * never holds a space, `/` or `>`.
   */
  lemma {:induction false} RunKeepsSafe(m: Machine, fuel: nat)
    requires m.Valid() && Safe(m)
    ensures Safe(Run(m, fuel).0)
    decreases fuel
  {
    if fuel > 0 {
      StepKeepsSafe(m);
      var (next, stop) := Step(m);
      if !stop {
        RunKeepsSafe(next, fuel - 1);
      }
    }
  }

  /** From a fresh parser, whatever has been appended after any number of iterations is safe. */
  lemma ParsedNodesSafe(input: seq<char>, fuel: nat)
    ensures var m := Run(Fresh(input), fuel).0;
      forall k | 0 <= k < |m.nodes| :: NodeSafe(m.nodes[k])
  {
    RunKeepsSafe(Fresh(input), fuel);
  }

  // ---------------------------------------------------------------------------
  // Configurations the loop never leaves

  /**
   * In markup-declaration-open, with an action rune next, an iteration reads
   * it, `scanIdent` pushes it back, reads it again and pushes it back again:
   * the machine is where it was.
   */
  lemma {:induction false} MarkupDeclarationStuck(m: Machine, fuel: nat)
    requires m.Valid() && m.state == MarkupDeclarationOpen && !m.cur.canUnread
    requires m.cur.pos < |m.cur.input| && IsAction(m.cur.input[m.cur.pos])
    ensures Run(m, fuel) == (m, false)
    decreases fuel
  {
    if fuel > 0 {
      MarkupDeclarationStep(m, m.cur.pos);
      MarkupDeclarationStuck(m, fuel - 1);
    }
  }

  /** `count` document nodes with an empty name. */
  function EmptyDocuments(count: nat): (r: seq<Node>)
    ensures |r| == count && forall k | 0 <= k < count :: r[k] == Document("")
  {
    if count == 0 then [] else [Document("")] + EmptyDocuments(count - 1)
  }

  /**
   * In DOCTYPE-name, with an action rune other than a space or `>` next,
   * every iteration appends a document node with an empty name and leaves
   * the reader where it was.
   */
  lemma {:induction false} DoctypeNameStuck(m: Machine, fuel: nat)
    requires m.Valid() && m.state == DOCTYPEName && !m.cur.canUnread
    requires m.cur.pos < |m.cur.input| && IsAction(m.cur.input[m.cur.pos])
    requires m.cur.input[m.cur.pos] != ' ' && m.cur.input[m.cur.pos] != '>'
    ensures Run(m, fuel) == (m.(nodes := m.nodes + EmptyDocuments(fuel)), false)
    decreases fuel
  {
    if fuel > 0 {
      DoctypeNameStep(m, m.cur.pos);
      assert m.cur == Cursor(m.cur.input, m.cur.pos, false);
      assert m.cur.input[m.cur.pos..m.cur.pos] == "";
      var next := m.(nodes := m.nodes + [Document("")]);
      RunUnfold(m, fuel);
      DoctypeNameStuck(next, fuel - 1);
      assert next.nodes + EmptyDocuments(fuel - 1) == m.nodes + EmptyDocuments(fuel);
    } else {
      assert m.nodes + EmptyDocuments(0) == m.nodes;
    }
  }

  // ---------------------------------------------------------------------------
  // Stretches of iterations

  /** `step` leads from `m` to `n` in `k` iterations, none of which stops. */
  ghost predicate Leads(step: Machine --> (Machine, bool), m: Machine, n: Machine, k: nat)
    decreases k
  {
    m.Valid() && if k == 0 then m == n else step.requires(m) && !step(m).1 && Leads(step, step(m).0, n, k - 1)
  }

  /** A loop that is led to `n` in `k` iterations goes on from `n` with `k` iterations less. */
  lemma {:induction false} LeadsLoop(step: Machine --> (Machine, bool), m: Machine, n: Machine, k: nat, fuel: nat)
    requires Steady(step) && Leads(step, m, n, k) && k <= fuel
    ensures n.Valid() && Loop(step, m, fuel) == Loop(step, n, fuel - k)
    decreases k
  {
    if k > 0 {
      assert step.requires(m) && !step(m).1 && Leads(step, step(m).0, n, k - 1);
      LeadsLoop(step, step(m).0, n, k - 1, fuel - 1);
      LoopUnfold(step, m, fuel);
    }
  }

  /** Two stretches of iterations, one after the other, make one. */
  lemma {:induction false} LeadsTrans(step: Machine --> (Machine, bool), m: Machine, n: Machine, o: Machine, k: nat, j: nat)
    requires Leads(step, m, n, k) && Leads(step, n, o, j)
    ensures Leads(step, m, o, k + j)
    decreases k
  {
    if k > 0 {
      LeadsTrans(step, step(m).0, n, o, k - 1, j);
    }
  }

  /** From `m` the loop of `parse` reaches `n` after `k` iterations, none of which met the end of the input. */
  ghost predicate Reaches(m: Machine, n: Machine, k: nat)
  {
    Leads(Step, m, n, k)
  }

  /** A run that reaches `n` after `k` iterations goes on as the run from `n` with `k` iterations less. */
  lemma ReachesRun(m: Machine, n: Machine, k: nat, fuel: nat)
    requires Reaches(m, n, k) && k <= fuel
    ensures n.Valid() && Run(m, fuel) == Run(n, fuel - k)
  {
    StepSteady();
    LeadsLoop(Step, m, n, k, fuel);
  }

  /** Two stretches of `parse` iterations make one. */
  lemma ReachesTrans(m: Machine, n: Machine, o: Machine, k: nat, j: nat)
    requires Reaches(m, n, k) && Reaches(n, o, j)
    ensures Reaches(m, o, k + j)
  {
    LeadsTrans(Step, m, n, o, k, j);
  }

  /** In data, a stretch of runes without `<` is dropped, one rune per iteration. */
  lemma {:induction false} DataSkips(m: Machine, k: nat)
    requires m.Valid() && m.state == Data && m.cur.pos + k <= |m.cur.input|
    requires forall i | m.cur.pos <= i < m.cur.pos + k :: m.cur.input[i] != '<'
    ensures Reaches(m, m.(cur := Cursor(m.cur.input, m.cur.pos + k, k > 0 || m.cur.canUnread)), k)
    decreases k
  {
    if k > 0 {
      DataStep(m);
      DataSkips(Advanced(m), k - 1);
    }
  }

  /** In tag-name, the runes up to `e`, none of them a space, `/` or `>`, are appended to the buffer verbatim. */
  lemma {:induction false} TagNameCollects(m: Machine, e: nat)
    requires m.Valid() && m.state == TagName && m.cur.pos <= e <= |m.cur.input|
    requires TagNameSafe(m.cur.input[m.cur.pos..e])
    ensures Reaches(m, m.(cur := Cursor(m.cur.input, e, e > m.cur.pos || m.cur.canUnread),
                          buf := m.buf + m.cur.input[m.cur.pos..e]), e - m.cur.pos)
    decreases e - m.cur.pos
  {
    var p, input := m.cur.pos, m.cur.input;
    if p < e {
      assert input[p] == input[p..e][0];
      TagNameStep(m);
      assert input[p + 1..e] == input[p..e][1..];
      var next := Advanced(m).(buf := m.buf + [input[p]]);
      TagNameCollects(next, e);
      assert next.buf + input[p + 1..e] == m.buf + input[p..e];
    } else {
      assert m.buf + input[p..p] == m.buf;
    }
  }

  /**
   * `<` read in data, followed by a rune other than `!` and `/`, leads to
   * tag-name with that rune pushed back, so that tag-name reads it first.
   */
  lemma TagOpens(m: Machine)
    requires m.Valid() && m.state == Data && m.cur.pos + 2 <= |m.cur.input| && m.cur.input[m.cur.pos] == '<'
    requires m.cur.input[m.cur.pos + 1] != '!' && m.cur.input[m.cur.pos + 1] != '/'
    ensures Reaches(m, m.(cur := Cursor(m.cur.input, m.cur.pos + 1, false), state := TagName), 2)
  {
    var m1 := Advanced(m).(state := TagOpen);
    DataStep(m);
    TagOpenStep(m1);
    assert Reaches(m1, m.(cur := Cursor(m.cur.input, m.cur.pos + 1, false), state := TagName), 1);
  }

  /**
   * In tag-name, a name without space, `/` or `>` closed by `>` appends one
   * element node named by the buffer followed by that name, empties the
   * buffer and returns to data.
   */
  lemma TagNameCloses(m: Machine, e: nat)
    requires m.Valid() && m.state == TagName
    requires m.cur.pos <= e < |m.cur.input| && m.cur.input[e] == '>'
    requires TagNameSafe(m.cur.input[m.cur.pos..e])
    ensures Reaches(m, Machine(Cursor(m.cur.input, e + 1, true), Data, [],
                               m.nodes + [Element(m.buf + m.cur.input[m.cur.pos..e])]), e - m.cur.pos + 1)
  {
    var named := m.(cur := Cursor(m.cur.input, e, e > m.cur.pos || m.cur.canUnread),
                    buf := m.buf + m.cur.input[m.cur.pos..e]);
    var closed := Advanced(named).(nodes := named.nodes + [Element(named.buf)], buf := [], state := Data);
    assert closed == Machine(Cursor(m.cur.input, e + 1, true), Data, [],
                             m.nodes + [Element(m.buf + m.cur.input[m.cur.pos..e])]);
    TagNameCollects(m, e);
    TagNameStep(named);
    assert Reaches(named, closed, 1);
    ReachesTrans(m, named, closed, e - m.cur.pos, 1);
  }

  /**
   * A start tag `<name>` read in data, whose name does not begin with `!`
   * or `/` and holds no space, `/` or `>`, appends one element node named
   * by the buffer followed by that name, empties the buffer and returns to
   * data after the `>`.
   */
  lemma StartTag(m: Machine, e: nat)
    requires m.Valid() && m.state == Data
    requires m.cur.pos + 1 <= e < |m.cur.input| && m.cur.input[m.cur.pos] == '<' && m.cur.input[e] == '>'
    requires m.cur.input[m.cur.pos + 1] != '!' && m.cur.input[m.cur.pos + 1] != '/'
    requires TagNameSafe(m.cur.input[m.cur.pos + 1..e])
    ensures Reaches(m, Machine(Cursor(m.cur.input, e + 1, true), Data, [],
                               m.nodes + [Element(m.buf + m.cur.input[m.cur.pos + 1..e])]), e - m.cur.pos + 2)
  {
    var inTag := m.(cur := Cursor(m.cur.input, m.cur.pos + 1, false), state := TagName);
    var closed := Machine(Cursor(inTag.cur.input, e + 1, true), Data, [],
                          inTag.nodes + [Element(inTag.buf + inTag.cur.input[inTag.cur.pos..e])]);
    assert closed == Machine(Cursor(m.cur.input, e + 1, true), Data, [],
                             m.nodes + [Element(m.buf + m.cur.input[m.cur.pos + 1..e])]);
    TagOpens(m);
    TagNameCloses(inTag, e);
    ReachesTrans(m, inTag, closed, 2, e - inTag.cur.pos + 1);
  }

  /** `</` read in data leads to end-tag-open. */
  lemma EndTagOpens(m: Machine)
    requires m.Valid() && m.state == Data && m.cur.pos + 2 <= |m.cur.input|
    requires m.cur.input[m.cur.pos] == '<' && m.cur.input[m.cur.pos + 1] == '/'
    ensures Reaches(m, m.(cur := Cursor(m.cur.input, m.cur.pos + 2, true), state := EndTagOpen), 2)
  {
    var m1 := Advanced(m).(state := TagOpen);
    DataStep(m);
    TagOpenStep(m1);
    assert Reaches(m1, m.(cur := Cursor(m.cur.input, m.cur.pos + 2, true), state := EndTagOpen), 1);
  }

  /** `<!` read in data leads to markup-declaration-open. */
  lemma MarkupOpens(m: Machine)
    requires m.Valid() && m.state == Data && m.cur.pos + 2 <= |m.cur.input|
    requires m.cur.input[m.cur.pos] == '<' && m.cur.input[m.cur.pos + 1] == '!'
    ensures Reaches(m, m.(cur := Cursor(m.cur.input, m.cur.pos + 2, true), state := MarkupDeclarationOpen), 2)
  {
    var m1 := Advanced(m).(state := TagOpen);
    DataStep(m);
    TagOpenStep(m1);
    assert Reaches(m1, m.(cur := Cursor(m.cur.input, m.cur.pos + 2, true), state := MarkupDeclarationOpen), 1);
  }

  /** `<!DOCTYPE` followed by a space or `>`, read in data, leads to before-DOCTYPE-name just after that rune. */
  lemma DoctypeOpens(m: Machine)
    requires m.Valid() && m.state == Data && m.cur.pos + 10 <= |m.cur.input|
    requires m.cur.input[m.cur.pos..m.cur.pos + 9] == "<!DOCTYPE"
    requires m.cur.input[m.cur.pos + 9] == ' ' || m.cur.input[m.cur.pos + 9] == '>'
    ensures Reaches(m, m.(cur := Cursor(m.cur.input, m.cur.pos + 10, true), state := BeforeDOCTYPEName), 4)
  {
    var p, input := m.cur.pos, m.cur.input;
    assert input[p] == input[p..p + 9][0] && input[p + 1] == input[p..p + 9][1];
    assert input[p + 2..p + 9] == input[p..p + 9][2..] == "DOCTYPE";
    var m2 := m.(cur := Cursor(input, p + 2, true), state := MarkupDeclarationOpen);
    var m3 := m.(cur := Cursor(input, p + 9, false), state := DOCTYPE);
    var n := m.(cur := Cursor(input, p + 10, true), state := BeforeDOCTYPEName);
    MarkupOpens(m);
    MarkupDeclarationStep(m2, p + 9);
    DoctypeStep(m3);
    assert Reaches(m3, n, 1);
    assert Reaches(m2, n, 2);
    ReachesTrans(m, m2, n, 2, 2);
  }

  /**
   * In before-DOCTYPE-name, a non-empty run of non-action runes closed by
   * `>` appends one document node with that name and returns to data.
   */
  lemma DoctypeNamed(m: Machine, e: nat)
    requires m.Valid() && m.state == BeforeDOCTYPEName
    requires RunEndsAt(m.cur.input, m.cur.pos, e) && m.cur.pos < e < |m.cur.input| && m.cur.input[e] == '>'
    ensures Reaches(m, m.(cur := Cursor(m.cur.input, e + 1, true), state := Data,
                          nodes := m.nodes + [Document(m.cur.input[m.cur.pos..e])]), 2)
  {
    var p, input := m.cur.pos, m.cur.input;
    assert input[p] == input[p..e][0];
    var m1 := m.(cur := Cursor(input, e, false), state := DOCTYPEName, nodes := m.nodes + [Document(input[p..e])]);
    BeforeDoctypeNameStep(m);
    DoctypeNameStep(m.(state := DOCTYPEName), e);
    assert RunEndsAt(input, e, e);
    DoctypeNameStep(m1, e);
    assert Reaches(m1, m1.(cur := Cursor(input, e + 1, true), state := Data), 1);
  }

  /**
   * A whole line `<!DOCTYPE name>` read in data appends one document node
   * with that name and returns to data after the `>`.
   */
  lemma DoctypeDeclaration(m: Machine, e: nat)
    requires m.Valid() && m.state == Data && m.cur.pos + 10 <= |m.cur.input|
    requires m.cur.input[m.cur.pos..m.cur.pos + 10] == "<!DOCTYPE "
    requires RunEndsAt(m.cur.input, m.cur.pos + 10, e) && m.cur.pos + 10 < e < |m.cur.input| && m.cur.input[e] == '>'
    ensures Reaches(m, m.(cur := Cursor(m.cur.input, e + 1, true),
                          nodes := m.nodes + [Document(m.cur.input[m.cur.pos + 10..e])]), 6)
  {
    var p, input := m.cur.pos, m.cur.input;
    assert input[p..p + 9] == input[p..p + 10][..9];
    assert input[p + 9] == input[p..p + 10][9];
    var m4 := m.(cur := Cursor(input, p + 10, true), state := BeforeDOCTYPEName);
    DoctypeOpens(m);
    DoctypeNamed(m4, e);
    ReachesTrans(m, m4, m.(cur := Cursor(input, e + 1, true), nodes := m.nodes + [Document(input[p + 10..e])]), 4, 2);
  }

  // ---------------------------------------------------------------------------
  // Whole inputs on which the loop never ends

  /**
   * An input that opens with `<!` and a run other than "DOCTYPE" that an
   * action rune ends (a comment, say) never lets `parse` return: the loop
   * stays in markup-declaration-open at that action rune and appends nothing.
   */
  lemma MarkupDeclarationNeverFinishes(d: seq<char>, e: nat, fuel: nat)
    requires |d| >= 2 && d[0] == '<' && d[1] == '!'
    requires RunEndsAt(d, 2, e) && e < |d| && d[2..e] != "DOCTYPE"
    ensures !Run(Fresh(d), fuel).1 && Run(Fresh(d), fuel).0.nodes == []
  {
    var m2 := Machine(Cursor(d, 2, true), MarkupDeclarationOpen, [], []);
    var stuck := Machine(Cursor(d, e, false), MarkupDeclarationOpen, [], []);
    MarkupOpens(Fresh(d));
    MarkupDeclarationStep(m2, e);
    assert Reaches(m2, stuck, 1);
    ReachesTrans(Fresh(d), m2, stuck, 2, 1);
    if fuel >= 3 {
      ReachesRun(Fresh(d), stuck, 3, fuel);
      MarkupDeclarationStuck(stuck, fuel - 3);
    } else {
      RunSplit(Fresh(d), fuel, 3 - fuel);
      ReachesRun(Fresh(d), stuck, 3, 3);
    }
  }

  /** A comment never lets `parse` return: on `<!--x-->` the loop spins at the closing `>`. */
  lemma CommentNeverFinishes(fuel: nat)
    ensures !Run(Fresh("<!--x-->"), fuel).1 && Run(Fresh("<!--x-->"), fuel).0.nodes == []
  {
    var d := "<!--x-->";
    assert d[2..7] == "--x--";
    MarkupDeclarationNeverFinishes(d, 7, fuel);
  }

  /**
   * `<!DOCTYPE>` followed by an action rune other than a space or `>`:
   * five iterations append one empty-named document node and leave the
   * loop in DOCTYPE-name at that rune, with nothing to unread.
   */
  lemma NamelessDoctypeSticks(d: seq<char>)
    requires |d| > 10 && d[..10] == "<!DOCTYPE>"
    requires IsAction(d[10]) && d[10] != ' ' && d[10] != '>'
    ensures Reaches(Fresh(d), Machine(Cursor(d, 10, false), DOCTYPEName, [], [Document("")]), 5)
  {
    var m4 := Machine(Cursor(d, 10, true), BeforeDOCTYPEName, [], []);
    var stuck := Machine(Cursor(d, 10, false), DOCTYPEName, [], [Document("")]);
    assert d[0..9] == d[..10][..9];
    assert d[9] == d[..10][9];
    DoctypeOpens(Fresh(d));
    BeforeDoctypeNameStep(m4);
    assert d[10..10] == "";
    DoctypeNameStep(m4.(state := DOCTYPEName), 10);
    assert Reaches(m4, stuck, 1);
    ReachesTrans(Fresh(d), m4, stuck, 4, 1);
  }

  /**
   * A run that reaches a DOCTYPE-name machine stuck on an action rune, as
   * DoctypeNameStuck describes it, never finishes from then on and appends
   * one empty-named document node per remaining iteration.
   */
  lemma ReachesDoctypeNameStuck(m: Machine, stuck: Machine, k: nat, fuel: nat)
    requires Reaches(m, stuck, k) && k <= fuel
    requires stuck.state == DOCTYPEName && !stuck.cur.canUnread
    requires stuck.cur.pos < |stuck.cur.input| && IsAction(stuck.cur.input[stuck.cur.pos])
    requires stuck.cur.input[stuck.cur.pos] != ' ' && stuck.cur.input[stuck.cur.pos] != '>'
    ensures Run(m, fuel) == (stuck.(nodes := stuck.nodes + EmptyDocuments(fuel - k)), false)
  {
    ReachesRun(m, stuck, k, fuel);
    DoctypeNameStuck(stuck, fuel - k);
  }

  /**
   * A DOCTYPE without a name followed by an action rune other than a space
   * or `>` (the `<` of a tag, say) never lets `parse` return: it appends
   * empty-named document nodes for ever.
   */
  lemma NamelessDoctypeNeverFinishes(d: seq<char>, fuel: nat)
    requires |d| > 10 && d[..10] == "<!DOCTYPE>"
    requires IsAction(d[10]) && d[10] != ' ' && d[10] != '>'
    requires fuel >= 5
    ensures !Run(Fresh(d), fuel).1 && Run(Fresh(d), fuel).0.nodes == EmptyDocuments(fuel - 4)
  {
    var stuck := Machine(Cursor(d, 10, false), DOCTYPEName, [], [Document("")]);
    NamelessDoctypeSticks(d);
    ReachesDoctypeNameStuck(Fresh(d), stuck, 5, fuel);
    assert EmptyDocuments(fuel - 4) == [Document("")] + EmptyDocuments(fuel - 5);
  }

  // ---------------------------------------------------------------------------
  // The document of the package's test

  /** The input of the package's test, line by line. */
  const TestDocument: string := "\n<!DOCTYPE html>" + "\n  <html>" + "\n  </html>\n"

  /** Where the runes of the test document that the parse turns on sit. */
  lemma TestDocumentLayout(d: string)
    requires d == TestDocument
    ensures |d| == 36 && d[0] != '<'
    ensures d[1..11] == "<!DOCTYPE " && RunEndsAt(d, 11, 15) && d[15] == '>' && d[11..15] == "html"
    ensures forall i | 16 <= i < 19 :: d[i] != '<'
    ensures d[19] == '<' && d[20] != '!' && d[20] != '/' && d[24] == '>' && d[20..24] == "html" && TagNameSafe(d[20..24])
    ensures forall i | 25 <= i < 28 :: d[i] != '<'
    ensures d[28] == '<' && d[29] == '/'
  {
  }

  /** The first line: a newline, then `<!DOCTYPE html>` appends the document node "html". */
  lemma TestDocumentHead(d: string)
    requires d == TestDocument
    ensures Reaches(Fresh(d), Machine(Cursor(d, 16, true), Data, [], [Document("html")]), 7)
  {
    TestDocumentLayout(d);
    var m1 := Machine(Cursor(d, 1, true), Data, [], []);
    DataSkips(Fresh(d), 1);
    DoctypeDeclaration(m1, 15);
    ReachesTrans(Fresh(d), m1, Machine(Cursor(d, 16, true), Data, [], [Document("html")]), 1, 6);
  }

  /** The second line: a newline and two spaces are dropped, then `<html>` appends the element node "html". */
  lemma TestDocumentBody(d: string)
    requires d == TestDocument
    ensures Reaches(Machine(Cursor(d, 16, true), Data, [], [Document("html")]),
                    Machine(Cursor(d, 25, true), Data, [], [Document("html"), Element("html")]), 10)
  {
    TestDocumentLayout(d);
    var m7 := Machine(Cursor(d, 16, true), Data, [], [Document("html")]);
    var m10 := m7.(cur := Cursor(d, 19, true));
    var m17 := Machine(Cursor(d, 25, true), Data, [], [Document("html"), Element("html")]);
    assert [] + d[20..24] == "html";
    assert m7.nodes + [Element("html")] == m17.nodes;
    DataSkips(m7, 3);
    StartTag(m10, 24);
    ReachesTrans(m7, m10, m17, 3, 7);
  }

  /** The third line: a newline and two spaces are dropped, then `</` leads to end-tag-open. */
  lemma TestDocumentTail(d: string)
    requires d == TestDocument
    ensures Reaches(Machine(Cursor(d, 25, true), Data, [], [Document("html"), Element("html")]),
                    Machine(Cursor(d, 30, true), EndTagOpen, [], [Document("html"), Element("html")]), 5)
  {
    TestDocumentLayout(d);
    var m17 := Machine(Cursor(d, 25, true), Data, [], [Document("html"), Element("html")]);
    var m20 := m17.(cur := Cursor(d, 28, true));
    DataSkips(m17, 3);
    EndTagOpens(m20);
    ReachesTrans(m17, m20, m20.(cur := Cursor(d, 30, true), state := EndTagOpen), 3, 2);
  }

  /** The three lines together: 22 iterations bring the test document to end-tag-open at its closing tag's name. */
  lemma TestDocumentReaches(d: string)
    requires d == TestDocument
    ensures Reaches(Fresh(d), Machine(Cursor(d, 30, true), EndTagOpen, [], [Document("html"), Element("html")]), 22)
  {
    var m7 := Machine(Cursor(d, 16, true), Data, [], [Document("html")]);
    var m17 := Machine(Cursor(d, 25, true), Data, [], [Document("html"), Element("html")]);
    TestDocumentHead(d);
    TestDocumentBody(d);
    TestDocumentTail(d);
    ReachesTrans(Fresh(d), m7, m17, 7, 10);
    ReachesTrans(Fresh(d), m17, Machine(Cursor(d, 30, true), EndTagOpen, [], [Document("html"), Element("html")]), 17, 5);
  }

  /**
   * From end-tag-open at position 30 of a 36-rune input, the rest is
   * ignored: a run of at least 29 iterations from where 22 of them lead
   * there reads to the end and returns.
   */
  lemma EndTagOpenRunsOut(d: string, fuel: nat)
    requires |d| == 36 && fuel >= 29
    requires Reaches(Fresh(d), Machine(Cursor(d, 30, true), EndTagOpen, [], [Document("html"), Element("html")]), 22)
    ensures Run(Fresh(d), fuel) ==
      (Machine(Cursor(d, 36, false), EndTagOpen, [], [Document("html"), Element("html")]), true)
  {
    var m22 := Machine(Cursor(d, 30, true), EndTagOpen, [], [Document("html"), Element("html")]);
    ReachesRun(Fresh(d), m22, 22, fuel);
    UnhandledIgnoresRest(m22, fuel - 22);
  }

  /**
   * The test document: after 29 iterations `parse` has read all of it and
   * returns; the root list holds exactly the document node "html" and the
   * element node "html", and the loop ends in end-tag-open, where the end
   * tag's name was ignored.
   */
  lemma TestDocumentTree(fuel: nat)
    requires fuel >= 29
    ensures Run(Fresh(TestDocument), fuel) ==
      (Machine(Cursor(TestDocument, 36, false), EndTagOpen, [], [Document("html"), Element("html")]), true)
  {
    TestDocumentLayout(TestDocument);
    TestDocumentReaches(TestDocument);
    EndTagOpenRunsOut(TestDocument, fuel);
  }
}
