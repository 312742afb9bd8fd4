/**
 * Standard input as both generators see it, and the question they share:
 * the application id, asked again until the answer is a valid identifier.
 *
 * The user's answers are a finite sequence of lines. `input()` past the
 * last one raises `EOFError`; whether that ends the program or is caught
 * depends on where the call sits, so each loop reports it as a value.
 */
module Prompt {
  import opened Py

  /** The exceptions an interactive session can end with. */
  datatype PyError =
    /** `input()` at the end of the input */
    | EOFError
    /** `int()` of an answer that is not a number */
    | ValueError
    /** a family name the catalog does not have */
    | KeyError(key: string)

  /**
   * What a question loop gets out of the answers it is given: the value
   * and how many answers it consumed, an exception, or the end of the input
   * inside a loop that catches every exception and so asks forever.
   */
  datatype Read<T> = Got(value: T, used: nat) | Failed(error: PyError) | Stuck

  /** The same outcome, reached `k` answers later. */
  function After<T>(r: Read<T>, k: nat): Read<T>
  {
    match r
    case Got(v, n) => Got(v, n + k)
    case Failed(e) => Failed(e)
    case Stuck => Stuck
  }

  lemma AfterAfter<T>(r: Read<T>, j: nat, k: nat)
    ensures After(After(r, j), k) == After(r, j + k)
  {
  }

  /**
   * An id both programs accept: non-empty, without a space and without a
   * hyphen (`" " in id` on a one-character pattern is a character test).
   */
  predicate ValidId(id: string)
  {
    id != "" && ' ' !in id && '-' !in id
  }

  /**
   * The check on an id given on the command line: one with a space or a
   * hyphen is dropped. An absent id (`None`) is `""`, as falsy as `None`.
   */
  function Screened(id: string): (r: string)
    ensures r == "" || ValidId(r)
    ensures r == id <==> (id == "" || ValidId(id))
  {
    if id != "" && (' ' in id || '-' in id) then "" else id
  }

  /**
   * The `while not id` loop over the answers still to come: the first valid
   * answer, after as many invalid ones as precede it; `EOFError` when none
   * of them is valid.
   */
  function AskId(answers: seq<string>): (r: Read<string>)
    ensures r.Got? || r == Failed(EOFError)
    ensures r.Got? ==> 0 < r.used <= |answers| && r.value == answers[r.used - 1] && ValidId(r.value)
    decreases |answers|
  {
    if answers == [] then Failed(EOFError)
    else if ValidId(answers[0]) then Got(answers[0], 1)
    else After(AskId(answers[1..]), 1)
  }

  /** The answers the id loop passes over are exactly invalid ones. */
  lemma {:induction false} AskIdSkipsInvalid(answers: seq<string>)
    ensures var r := AskId(answers);
      && (r.Got? ==> forall i :: 0 <= i < r.used - 1 ==> !ValidId(answers[i]))
      && (r.Failed? ==> forall i :: 0 <= i < |answers| ==> !ValidId(answers[i]))
    decreases |answers|
  {
    if answers != [] && !ValidId(answers[0]) {
      AskIdSkipsInvalid(answers[1..]);
      assert forall i :: 0 <= i < |answers| - 1 ==> answers[1..][i] == answers[i + 1];
    }
  }

  /** The loop entered with `id`: no question at all when `id` is already set. */
  function IdLoop(id: string, answers: seq<string>): (r: Read<string>)
    ensures r.Got? || r == Failed(EOFError)
    ensures r.Got? ==> r.used <= |answers| && r.value != ""
    ensures id != "" ==> r == Got(id, 0)
    ensures id == "" && r.Got? ==> ValidId(r.value)
  {
    if id != "" then Got(id, 0) else AskId(answers)
  }

  /** Answers the user types after the first valid one are left unread. */
  lemma {:induction false} AskIdPrefix(answers: seq<string>, more: seq<string>)
    requires AskId(answers).Got?
    ensures AskId(answers + more) == AskId(answers)
    decreases |answers|
  {
    assert (answers + more)[0] == answers[0];
    if !ValidId(answers[0]) {
      assert (answers + more)[1..] == answers[1..] + more;
      AskIdPrefix(answers[1..], more);
    }
  }

  lemma Skip(lines: seq<string>, p: nat, k: nat)
    requires p + k <= |lines|
    ensures lines[p + k..] == lines[p..][k..]
  {
  }

  /** Standard input: the lines the user types, and how many `input()` has read. */
  class Console {
    var lines: seq<string>
    var pos: nat

    ghost predicate Valid()
      reads this
    {
      pos <= |lines|
    }

    /** The answers not read yet. */
    function Rest(): seq<string>
      reads this
      requires Valid()
    {
      lines[pos..]
    }

    constructor (lines: seq<string>)
      ensures Valid() && this.lines == lines && pos == 0
    {
      this.lines := lines;
      pos := 0;
    }

    /** `input()`: the next answer; `None` is the `EOFError` at the end of the input. */
    method ReadLine() returns (r: Option<string>)
      requires Valid()
      modifies this
      ensures Valid() && lines == old(lines)
      ensures old(Rest()) == [] ==> r.None? && pos == old(pos)
      ensures old(Rest()) != [] ==> r == Some(old(Rest())[0]) && pos == old(pos) + 1
    {
      if pos == |lines| {
        return None;
      }
      r := Some(lines[pos]);
      pos := pos + 1;
    }
  }

  /**
   * The id question of both programs, entered with the screened command-line
   * id: asked until the answer is valid, by the loop `IdLoop` describes.
   */
  method ReadId(id: string, console: Console) returns (r: Read<string>)
    requires console.Valid()
    modifies console
    ensures console.Valid() && console.lines == old(console.lines)
    ensures r == IdLoop(id, old(console.Rest()))
    ensures r.Got? ==> console.pos == old(console.pos) + r.used
  {
    if id != "" {
      return Got(id, 0);
    }
    ghost var answers := old(console.Rest());
    ghost var rest := answers;
    var n := 0;
    while true
      invariant console.Valid() && console.lines == old(console.lines)
      invariant console.pos == old(console.pos) + n
      invariant console.Rest() == rest
      invariant AskId(answers) == After(AskId(rest), n)
      decreases |rest|
    {
      var line := console.ReadLine();
      if line.None? {
        return Failed(EOFError);
      }
      if ValidId(line.value) {
        return Got(line.value, n + 1);
      }
      AfterAfter(AskId(rest[1..]), 1, n);
      rest := rest[1..];
      n := n + 1;
    }
  }

  /**
   * A numbered menu: its entries in display order, whether the answer is
   * stripped before `int()` reads it (`int(input().strip())`), whether an
   * answer that is empty after stripping means 1 (`int(input().strip() or 1)`),
   * and whether the loop catches every exception (`except Exception`) or
   * only `IndexError`.
   */
  datatype Menu = Menu(entries: seq<string>, strips: bool, defaultFirst: bool, catchesAll: bool)

  /** What one answer does to a menu loop. */
  datatype Reply = Chose(entry: string) | Again | Raised(error: PyError)

  /** The text `int()` is handed: the answer, stripped first when the menu strips. */
  function Typed(m: Menu, line: string): string
  {
    if m.strips then Strip(line) else line
  }

  /**
   * The number an answer stands for; `None` is the `ValueError` of `int()`.
   * `str.strip()` removes more than `int()` skips (the information
   * separators 0x1C-0x1F), so stripping first changes what is accepted.
   */
  function Choice(m: Menu, line: string): Option<int>
  {
    var t := Typed(m, line);
    if m.defaultFirst && t == "" then Some(1) else ParseInt(t)
  }

  /**
   * One pass through a menu loop: choice `c` is `entries[c - 1]` with
   * Python's indexing, so 0 and negative numbers count from the end; an
   * index outside the list, or an entry that is empty, asks again; a
   * non-number raises unless the loop catches everything.
   */
  function Answer(m: Menu, line: string): (r: Reply)
    ensures r.Chose? ==> r.entry in m.entries && r.entry != ""
    ensures r.Raised? ==> r.error == ValueError && !m.catchesAll
    ensures r.Raised? <==> !m.catchesAll && Choice(m, line).None?
  {
    match Choice(m, line)
    case None => if m.catchesAll then Again else Raised(ValueError)
    case Some(c) =>
      match PyIndex(m.entries, c - 1)
      case None => Again
      case Some(e) => if e == "" then Again else Chose(e)
  }

  /**
   * The `while not x` menu loop over the answers still to come: the first
   * answer that chooses an entry, unless an earlier one raised. At the end
   * of the input `input()` raises `EOFError`; a loop that catches every
   * exception catches that too and asks forever, which is `Stuck`.
   */
  function AskMenu(m: Menu, answers: seq<string>): (r: Read<string>)
    ensures r.Got? ==> 0 < r.used <= |answers| && Answer(m, answers[r.used - 1]) == Chose(r.value)
    ensures r.Failed? ==> !m.catchesAll && (r.error == EOFError || r.error == ValueError)
    ensures r.Stuck? ==> m.catchesAll
    decreases |answers|
  {
    if answers == [] then (if m.catchesAll then Stuck else Failed(EOFError))
    else
      match Answer(m, answers[0])
      case Chose(e) => Got(e, 1)
      case Raised(e) => Failed(e)
      case Again =>
        var later := AskMenu(m, answers[1..]);
        assert later.Got? ==> answers[1..][later.used - 1] == answers[later.used];
        After(later, 1)
  }

  /**
   * The answers a menu loop passes over are exactly those that ask again;
   * it ends with `EOFError`, or asks forever, only when every answer did.
   */
  lemma {:induction false} AskMenuSkipsAgain(m: Menu, answers: seq<string>)
    ensures var r := AskMenu(m, answers);
      && (r.Got? ==> forall i :: 0 <= i < r.used - 1 ==> Answer(m, answers[i]) == Again)
      && (r == Failed(EOFError) || r.Stuck? ==> forall i :: 0 <= i < |answers| ==> Answer(m, answers[i]) == Again)
    decreases |answers|
  {
    if answers != [] && Answer(m, answers[0]).Again? {
      AskMenuSkipsAgain(m, answers[1..]);
      assert forall i :: 0 <= i < |answers| - 1 ==> answers[1..][i] == answers[i + 1];
    }
  }

  /**
   * Typing the number `k` reads as `k`, whatever the menu, unless it has
   * more digits than `int()` converts: then it is a `ValueError`.
   */
  lemma ChoiceOfNumber(m: Menu, k: nat)
    ensures Choice(m, Decimal(k)) == if |Decimal(k)| <= MaxStrDigits then Some(k) else None
  {
    ParseDecimal(k);
    StripDecimal(k, "", "");
    assert "" + Decimal(k) + "" == Decimal(k);
  }

  /**
   * In a menu that strips its answers, the number `k` surrounded by any
   * white space `str.strip()` removes reads as `k`, within the digit limit
   * of `int()`.
   */
  lemma ChoiceOfPadded(m: Menu, k: nat, pre: string, post: string)
    requires m.strips
    requires forall i :: 0 <= i < |pre| ==> IsSpace(pre[i])
    requires forall i :: 0 <= i < |post| ==> IsSpace(post[i])
    ensures Choice(m, pre + Decimal(k) + post) == if |Decimal(k)| <= MaxStrDigits then Some(k) else None
  {
    StripDecimal(k, pre, post);
    ParseDecimal(k);
  }

  /**
   * An answer `int()` rejects ends the loop with `ValueError`, or asks
   * again when the loop catches everything.
   */
  lemma MenuRejects(m: Menu, answers: seq<string>)
    requires answers != [] && Choice(m, answers[0]).None?
    ensures AskMenu(m, answers) == if m.catchesAll then After(AskMenu(m, answers[1..]), 1) else Failed(ValueError)
  {
  }

  /** An answer that reads as `k`, for `1 <= k <= n`, selects the k-th entry. */
  lemma MenuChooses(m: Menu, k: nat, answers: seq<string>)
    requires 1 <= k <= |m.entries| && m.entries[k - 1] != ""
    requires answers != [] && Choice(m, answers[0]) == Some(k)
    ensures AskMenu(m, answers) == Got(m.entries[k - 1], 1)
  {
  }

  /**
   * Choice `k`, for `1 <= k <= n`, selects the k-th entry in display order;
   * a numeral longer than `int()` converts is rejected instead.
   */
  lemma MenuSelects(m: Menu, k: nat, answers: seq<string>)
    requires 1 <= k <= |m.entries| && m.entries[k - 1] != ""
    requires answers != [] && answers[0] == Decimal(k)
    ensures |Decimal(k)| <= MaxStrDigits ==> AskMenu(m, answers) == Got(m.entries[k - 1], 1)
    ensures |Decimal(k)| > MaxStrDigits ==>
      AskMenu(m, answers) == if m.catchesAll then After(AskMenu(m, answers[1..]), 1) else Failed(ValueError)
  {
    ChoiceOfNumber(m, k);
    if |Decimal(k)| > MaxStrDigits {
      MenuRejects(m, answers);
    }
  }

  /**
   * In a menu that strips its answers, choice `k` padded with white space,
   * the information separators included, selects the k-th entry, within
   * the digit limit of `int()`.
   */
  lemma MenuSelectsPadded(m: Menu, k: nat, pre: string, post: string, answers: seq<string>)
    requires m.strips && 1 <= k <= |m.entries| && m.entries[k - 1] != ""
    requires forall i :: 0 <= i < |pre| ==> IsSpace(pre[i])
    requires forall i :: 0 <= i < |post| ==> IsSpace(post[i])
    requires answers != [] && answers[0] == pre + Decimal(k) + post
    ensures |Decimal(k)| <= MaxStrDigits ==> AskMenu(m, answers) == Got(m.entries[k - 1], 1)
    ensures |Decimal(k)| > MaxStrDigits ==>
      AskMenu(m, answers) == if m.catchesAll then After(AskMenu(m, answers[1..]), 1) else Failed(ValueError)
  {
    ChoiceOfPadded(m, k, pre, post);
    if |Decimal(k)| > MaxStrDigits {
      MenuRejects(m, answers);
    } else {
      MenuChooses(m, k, answers);
    }
  }

  /** Choice 0 is index -1, the last entry: Python's negative indexing. */
  lemma MenuZeroIsLast(m: Menu, answers: seq<string>)
    requires m.entries != [] && m.entries[|m.entries| - 1] != ""
    requires answers != [] && answers[0] == "0"
    ensures AskMenu(m, answers) == Got(m.entries[|m.entries| - 1], 1)
  {
    ChoiceOfNumber(m, 0);
    assert Decimal(0) == "0";
  }

  /**
   * A number past the last entry is an `IndexError`: the menu asks again.
   * One with more digits than `int()` converts is a `ValueError` instead,
   * which ends the loop unless it catches everything.
   */
  lemma MenuBeyond(m: Menu, k: nat, answers: seq<string>)
    requires k > |m.entries| && answers != [] && answers[0] == Decimal(k)
    ensures |Decimal(k)| <= MaxStrDigits || m.catchesAll ==> AskMenu(m, answers) == After(AskMenu(m, answers[1..]), 1)
    ensures |Decimal(k)| > MaxStrDigits && !m.catchesAll ==> AskMenu(m, answers) == Failed(ValueError)
  {
    ChoiceOfNumber(m, k);
    if |Decimal(k)| > MaxStrDigits {
      MenuRejects(m, answers);
    }
  }

  /**
   * In a menu with a default, an answer that is empty once stripped (Return,
   * or only white space `str.strip()` removes) selects the first entry.
   */
  lemma MenuDefault(m: Menu, answers: seq<string>)
    requires m.defaultFirst && m.entries != [] && m.entries[0] != ""
    requires answers != [] && Typed(m, answers[0]) == ""
    ensures AskMenu(m, answers) == Got(m.entries[0], 1)
  {
  }

  /**
   * In a menu without a default, pressing Return is `int("")`: a
   * `ValueError` that ends the session, or a new question when the loop
   * catches everything.
   */
  lemma MenuEmptyAnswer(m: Menu, answers: seq<string>)
    requires !m.defaultFirst && answers != [] && answers[0] == ""
    ensures !m.catchesAll ==> AskMenu(m, answers) == Failed(ValueError)
    ensures m.catchesAll ==> AskMenu(m, answers) == After(AskMenu(m, answers[1..]), 1)
  {
    assert Strip("") == "";
  }

  /** Answers after the one that chooses are left unread. */
  lemma {:induction false} AskMenuPrefix(m: Menu, answers: seq<string>, more: seq<string>)
    requires AskMenu(m, answers).Got?
    ensures AskMenu(m, answers + more) == AskMenu(m, answers)
    decreases |answers|
  {
    var all := answers + more;
    assert all[0] == answers[0] && all[1..] == answers[1..] + more;
    var reply := Answer(m, answers[0]);
    AskMenuFirst(m, answers);
    AskMenuFirst(m, all);
    if reply.Again? {
      AskMenuPrefix(m, answers[1..], more);
    }
  }

  /** One answer of a menu loop, unfolded. */
  lemma AskMenuFirst(m: Menu, answers: seq<string>)
    requires answers != []
    ensures Answer(m, answers[0]).Chose? ==> AskMenu(m, answers) == Got(Answer(m, answers[0]).entry, 1)
    ensures Answer(m, answers[0]).Raised? ==> AskMenu(m, answers) == Failed(Answer(m, answers[0]).error)
    ensures Answer(m, answers[0]).Again? ==> AskMenu(m, answers) == After(AskMenu(m, answers[1..]), 1)
  {
  }

  /** Reading one answer to a menu and what it does; `None` is the end of the input. */
  method ReadReply(m: Menu, console: Console) returns (next: Option<Reply>)
    requires console.Valid()
    modifies console
    ensures console.Valid() && console.lines == old(console.lines)
    ensures old(console.Rest()) == [] ==> next.None? && console.pos == old(console.pos)
    ensures old(console.Rest()) != [] ==>
      && next == Some(Answer(m, old(console.Rest())[0]))
      && console.pos == old(console.pos) + 1
      && console.Rest() == old(console.Rest())[1..]
  {
    var line := console.ReadLine();
    if line.None? {
      return None;
    }
    next := Some(Answer(m, line.value));
  }

  /** A menu question, asked until an answer chooses, by the loop `AskMenu` describes. */
  method ReadMenu(m: Menu, console: Console) returns (r: Read<string>)
    requires console.Valid()
    modifies console
    ensures console.Valid() && console.lines == old(console.lines)
    ensures r == AskMenu(m, old(console.Rest()))
    ensures r.Got? ==> console.pos == old(console.pos) + r.used
  {
    ghost var answers := old(console.Rest());
    ghost var rest := answers;
    var n := 0;
    while true
      invariant console.Valid() && console.lines == old(console.lines)
      invariant console.pos == old(console.pos) + n
      invariant console.Rest() == rest
      invariant AskMenu(m, answers) == After(AskMenu(m, rest), n)
      decreases |rest|
    {
      var next := ReadReply(m, console);
      if next.None? {
        return if m.catchesAll then Stuck else Failed(EOFError);
      }
      AskMenuFirst(m, rest);
      var reply := next.value;
      if reply.Chose? {
        return Got(reply.entry, n + 1);
      } else if reply.Raised? {
        return Failed(reply.error);
      }
      AfterAfter(AskMenu(m, rest[1..]), 1, n);
      rest := rest[1..];
      n := n + 1;
    }
  }

  /**
   * A `while not x` menu loop entered with `x` already set from the command
   * line: it asks nothing. A value given that way is not checked against
   * the menu.
   */
  function Given(v: string, m: Menu, answers: seq<string>): (r: Read<string>)
    ensures v != "" ==> r == Got(v, 0)
    ensures v == "" ==> r == AskMenu(m, answers)
    ensures r.Got? ==> r.used <= |answers| && r.value != ""
    ensures r.Got? && v == "" ==> r.value in m.entries
  {
    if v != "" then Got(v, 0) else AskMenu(m, answers)
  }

  method ReadGiven(v: string, m: Menu, console: Console) returns (r: Read<string>)
    requires console.Valid()
    modifies console
    ensures console.Valid() && console.lines == old(console.lines)
    ensures r == Given(v, m, old(console.Rest()))
    ensures r.Got? ==> console.Rest() == old(console.Rest())[r.used..]
    ensures r.Got? ==> console.pos == old(console.pos) + r.used
  {
    if v != "" {
      return Got(v, 0);
    }
    r := ReadMenu(m, console);
    if r.Got? {
      Skip(console.lines, old(console.pos), r.used);
    }
  }
}
