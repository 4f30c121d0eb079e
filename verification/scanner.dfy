/**
 * The lexical scanner of parser.go: a cursor over the decoded input with one
 * step of push-back, as `bufio.Reader.ReadRune`/`UnreadRune` provide it.
 */
module Scanning {

  /** What `read` returns: a character of the input, or EOF (Go's -1, which no character equals). */
  datatype Rune = Ch(c: char) | EOF

  /** The six runes that stop an identifier. */
  const ActionRunes: set<char> := {'<', '>', '/', '&', '!', ' '}

  /** `isAction`: the runes that stop an identifier are exactly the six action runes. */
  predicate IsAction(ch: char): (b: bool)
    ensures b <==> ch in ActionRunes
  {
    ch == '<' || ch == '>' || ch == '/' || ch == '&' || ch == '!' || ch == ' '
  }

  /** True when no rune of `s` is an action rune. */
  predicate ActionFree(s: string)
  {
    forall i | 0 <= i < |s| :: !IsAction(s[i])
  }

  /**
   * The reader's state: the input, the index of the next rune, and whether
   * the last operation was a successful read (only then may it be unread).
   */
  datatype Cursor = Cursor(input: seq<char>, pos: nat, canUnread: bool)
  {
    predicate Valid()
    {
      pos <= |input| && (canUnread ==> 0 < pos)
    }

    /** `ReadRune`: the next rune, or EOF at the end; either way the push-back slot is rewritten. */
    function Read(): (res: (Rune, Cursor))
      requires Valid()
      ensures res.1.Valid() && res.1.input == input
      ensures res.0 == EOF <==> pos == |input|
      ensures res.0.Ch? ==> res.0.c == input[pos] && res.1.pos == pos + 1 && res.1.canUnread
      ensures res.0 == EOF ==> res.1.pos == pos && !res.1.canUnread
    {
      if pos < |input| then (Ch(input[pos]), Cursor(input, pos + 1, true))
      else (EOF, Cursor(input, pos, false))
    }

    /** `UnreadRune` with its error discarded: steps back only right after a successful read. */
    function Unread(): (c: Cursor)
      requires Valid()
      ensures c.Valid() && c.input == input && !c.canUnread
      ensures c.pos == (if canUnread then pos - 1 else pos)
    {
      if canUnread then Cursor(input, pos - 1, false) else Cursor(input, pos, false)
    }

    /** The loop of `scanIdent`: `lit` so far, extended by the run of non-action runes at `pos`. */
    function ScanRun(lit: string): (res: (string, Cursor))
      requires Valid()
      ensures res.1.Valid() && res.1.input == input && !res.1.canUnread
      decreases |input| - pos
    {
      var (ch, next) := Read();
      match ch
      case EOF => (lit, next)
      case Ch(x) => if IsAction(x) then (lit, next.Unread()) else next.ScanRun(lit + [x])
    }

    /**
     * `scanIdent`: push back the current rune, then collect the run of
     * non-action runes from there (ScanIdentSpec says which run).
     */
    function ScanIdent(): (res: (string, Cursor))
      requires Valid()
      ensures res.1.Valid() && res.1.input == input && !res.1.canUnread
    {
      Unread().ScanRun("")
    }
  }

  /** The loop of `scanIdent` adds to `lit` the maximal run of non-action runes at the position and stops after it. */
  lemma {:induction false} ScanRunSpec(c: Cursor, lit: string)
    requires c.Valid()
    ensures var (res, after) := c.ScanRun(lit);
      && c.pos <= after.pos && res == lit + c.input[c.pos..after.pos]
      && (forall i | c.pos <= i < after.pos :: !IsAction(c.input[i]))
      && (after.pos == |c.input| || IsAction(c.input[after.pos]))
    decreases |c.input| - c.pos
  {
    var (ch, next) := c.Read();
    if ch.Ch? && !IsAction(ch.c) {
      ScanRunSpec(next, lit + [ch.c]);
      var after := next.ScanRun(lit + [ch.c]).1;
      assert c.input[c.pos..after.pos] == [ch.c] + c.input[c.pos + 1..after.pos];
    }
  }

  /**
   * `scanIdent` pushes back the current rune and returns the maximal run of
   * non-action runes that starts there; an action rune that ends the run is
   * left unread, and the push-back slot is spent.
   */
  lemma ScanIdentSpec(c: Cursor)
    requires c.Valid()
    ensures var (ident, after) := c.ScanIdent(); var start := c.Unread().pos;
      && start <= after.pos && ident == c.input[start..after.pos]
      && ActionFree(ident)
      && (after.pos == |c.input| || IsAction(c.input[after.pos]))
  {
    ScanRunSpec(c.Unread(), "");
  }

  /**
   * The run `scanIdent` collects is determined by where it ends: any `e`
   * that closes a run of non-action runes from the pushed-back position at
   * an action rune or at the end of the input is where the reader is left.
   */
  lemma ScanIdentStopsAt(c: Cursor, e: nat)
    requires c.Valid() && c.Unread().pos <= e <= |c.input|
    requires ActionFree(c.input[c.Unread().pos..e])
    requires e == |c.input| || IsAction(c.input[e])
    ensures c.ScanIdent() == (c.input[c.Unread().pos..e], Cursor(c.input, e, false))
  {
    ScanIdentSpec(c);
    var start, after := c.Unread().pos, c.ScanIdent().1;
    forall i | start <= i < e
      ensures !IsAction(c.input[i])
    {
      assert c.input[i] == c.input[start..e][i - start];
    }
    forall i | start <= i < after.pos
      ensures !IsAction(c.input[i])
    {
      assert c.input[i] == c.input[start..after.pos][i - start];
    }
    assert after == Cursor(c.input, e, false);
  }

  /** A reader positioned at the start of `input`. */
  function Open(input: seq<char>): Cursor
  {
    Cursor(input, 0, false)
  }

  /** `read` yields the rune at the position and moves past it, or EOF without moving. */
  lemma ReadAdvances(c: Cursor)
    requires c.Valid()
    ensures c.Read().1.Valid() && c.Read().1.input == c.input
    ensures c.pos < |c.input| ==>
      c.Read().0 == Ch(c.input[c.pos]) && c.Read().1.pos == c.pos + 1 && c.Read().1.canUnread
    ensures c.pos == |c.input| ==>
      c.Read().0 == EOF && c.Read().1.pos == c.pos && !c.Read().1.canUnread
  {
  }

  /** An `unread` right after a successful `read` makes the next `read` return the same rune again. */
  lemma UnreadAfterRead(c: Cursor)
    requires c.Valid() && c.pos < |c.input|
    ensures c.Read().1.Unread() == c.(canUnread := false)
    ensures c.Read().1.Unread().Read() == c.Read()
  {
  }

  /** Any other `unread` fails, and the failure changes nothing. */
  lemma UnreadIgnored(c: Cursor)
    requires c.Valid() && !c.canUnread
    ensures c.Unread() == c
    ensures c.Unread().Unread() == c
  {
  }

  /**
   * When `scanIdent` stops on an action rune, that rune is left unread: the
   * next `read` returns it, and a `scanIdent` right after that read pushes
   * it back again, returns "" and leaves the reader where it was.
   */
  lemma ScanIdentLeavesStopRune(c: Cursor)
    requires c.Valid()
    ensures var (lit, after) := c.ScanIdent();
      after.pos < |c.input| ==>
        && after.Read().0 == Ch(c.input[after.pos]) && IsAction(c.input[after.pos])
        && after.Read().1.ScanIdent() == ("", after)
  {
    ScanIdentSpec(c);
    var after := c.ScanIdent().1;
    if after.pos < |c.input| {
      ScanIdentStopsAt(after.Read().1, after.pos);
    }
  }

  /** `scanner`: the cursor as an object whose methods move it. */
  class Scanner {
    const input: seq<char>
    var pos: nat
    var canUnread: bool

    ghost function View(): Cursor
      reads this
    {
      Cursor(input, pos, canUnread)
    }

    ghost predicate Valid()
      reads this
    {
      View().Valid()
    }

    constructor (input: seq<char>)
      ensures View() == Open(input) && Valid()
    {
      this.input := input;
      pos := 0;
      canUnread := false;
    }

    method Read() returns (r: Rune)
      requires Valid()
      modifies this
      ensures Valid()
      ensures (r, View()) == old(View()).Read()
    {
      if pos < |input| {
        r := Ch(input[pos]);
        pos, canUnread := pos + 1, true;
      } else {
        r := EOF;
        canUnread := false;
      }
    }

    method Unread()
      requires Valid()
      modifies this
      ensures Valid()
      ensures View() == old(View()).Unread()
    {
      if canUnread {
        pos := pos - 1;
      }
      canUnread := false;
    }

    /** `scan` is a plain `read`. */
    method Scan() returns (tok: Rune)
      requires Valid()
      modifies this
      ensures Valid()
      ensures (tok, View()) == old(View()).Read()
    {
      tok := Read();
    }

    method ScanIdent() returns (lit: string)
      requires Valid()
      modifies this
      ensures Valid()
      ensures (lit, View()) == old(View()).ScanIdent()
    {
      Unread();
      lit := "";
      ghost var before := View();
      var ch := Read();
      while ch != EOF && !IsAction(ch.c)
        invariant Valid()
        invariant before.Valid() && (ch, View()) == before.Read()
        invariant before.ScanRun(lit) == old(View()).ScanIdent()
        decreases |input| - before.pos
      {
        lit := lit + [ch.c];
        before := View();
        ch := Read();
      }
      if ch != EOF {
        Unread();
      }
    }
  }
}
