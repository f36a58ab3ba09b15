/** The numeric-token scanner of the command-line tool (cli/extract.hpp): a
    line of text yields up to N numbers, either the tokens from a given
    position on, or the capture groups of a regular expression. */
module BlotExtract {

  import opened BlotTypes

  /** A character that can begin a number: a digit or '.'. */
  predicate IsNumberStart(c: char)
  {
    '0' <= c <= '9' || c == '.'
  }

  /** The first position at or after i that holds a digit or '.', or the end
      of the text. */
  function NextStart(text: string, i: nat): (j: nat)
    requires i <= |text|
    ensures i <= j <= |text|
    ensures j < |text| ==> IsNumberStart(text[j])
    decreases |text| - i
  {
    if i < |text| && !IsNumberStart(text[i]) then NextStart(text, i + 1) else i
  }

  /** Nothing between i and the next start can begin a number: the skip is
      as short as it can be. */
  lemma {:induction false} NextStartSkipsOnlyNoise(text: string, i: nat)
    requires i <= |text|
    ensures forall k | i <= k < NextStart(text, i) :: !IsNumberStart(text[k])
    decreases |text| - i
  {
    if i < |text| && !IsNumberStart(text[i]) {
      NextStartSkipsOnlyNoise(text, i + 1);
    }
  }

  /** Extract::__advance: skips every character that cannot begin a number
      (signs and separators included). */
  method Advance(text: string, i: nat) returns (j: nat)
    requires i <= |text|
    ensures j == NextStart(text, i)
  {
    j := i;
    while j < |text| && !IsNumberStart(text[j])
      invariant i <= j <= |text|
      invariant NextStart(text, j) == NextStart(text, i)
    {
      j := j + 1;
    }
  }

  /** A minus sign is skipped like any separator, so "x=-1.5" is scanned from
      the '1'. */
  lemma SignsAreSkipped()
    ensures NextStart("x=-1.5", 0) == 3
  {
    assert NextStart("x=-1.5", 3) == 3;
  }

  /** What std::from_chars reads from the front of a string: the value and
      the number of characters it took. */
  datatype Read<T> = Read(value: T, width: nat)

  /** std::from_chars as a token parser: a read, or None when the string does
      not begin with a number.  A successful read takes at least one
      character of the string. */
  ghost predicate Consumes<T>(fromChars: string -> Option<Read<T>>)
  {
    forall s: string :: fromChars(s).Some? ==> 1 <= fromChars(s).value.width <= |s|
  }

  // ---- the positional path ----

  /** The results of the token parser at each position of a line: at[j] is
      what it reads from text[j..].  Each read stays inside the line and takes
      at least one character. */
  predicate ReadsForward<T>(text: string, at: seq<Option<Read<T>>>)
  {
    |at| == |text| && forall j | 0 <= j < |at| :: at[j].Some? ==> 1 <= at[j].value.width <= |text| - j
  }

  /** The token parser applied at every position of the line. */
  function ReadsOf<T>(text: string, fromChars: string -> Option<Read<T>>): (at: seq<Option<Read<T>>>)
    requires Consumes(fromChars)
    ensures ReadsForward(text, at)
    ensures forall j | 0 <= j < |text| :: at[j] == fromChars(text[j..])
  {
    var rs := seq(|text|, (j: int) requires 0 <= j < |text| => fromChars(text[j..]));
    assert forall j | 0 <= j < |rs| :: rs[j] == fromChars(text[j..]) && |text[j..]| == |text| - j;
    rs
  }

  /** Every numeric token from position i on, in text order; Abort when one
      cannot be parsed (the process exits with status 1). */
  function Tokens<T>(text: string, i: nat, at: seq<Option<Read<T>>>): Outcome<seq<T>>
    requires i <= |text| && ReadsForward(text, at)
    decreases |text| - i
  {
    var j := NextStart(text, i);
    if j == |text| then Ok([])
    else if at[j].None? then Abort
    else
      var rest := Tokens(text, j + at[j].value.width, at);
      if rest.Ok? then Ok([at[j].value.value] + rest.value) else rest
  }

  /** The loop of the positional path from position i, with n tokens seen and
      `kept` stored: it stops at the end of the text or when `cap` (N) values
      are stored, keeps the tokens whose index is at least `start`, and exits
      on a token it cannot parse. */
  function Positional<T>(text: string, i: nat, n: nat, start: nat, cap: nat, kept: seq<T>,
                         at: seq<Option<Read<T>>>): Outcome<seq<T>>
    requires i <= |text| && ReadsForward(text, at)
    decreases |text| - i
  {
    var j := NextStart(text, i);
    if j == |text| || |kept| >= cap then Ok(kept)
    else if at[j].None? then Abort
    else
      Positional(text, j + at[j].value.width, n + 1, start, cap,
                 if n >= start then kept + [at[j].value.value] else kept, at)
  }

  /** The tokens of `ts`, the first of which has index n, whose index is at
      least `start`. */
  function Keep<T>(ts: seq<T>, n: nat, start: nat): (r: seq<T>)
    ensures |r| <= |ts|
  {
    if start <= n then ts else if start - n >= |ts| then [] else ts[start - n..]
  }

  /** The first k elements of s (all of them when there are fewer). */
  function Take<T>(s: seq<T>, k: nat): (r: seq<T>)
    ensures |r| == if k < |s| then k else |s|
  {
    if k >= |s| then s else s[..k]
  }

  /** When every token parses, the positional loop keeps, in text order, the
      tokens whose index is at least `start`, and at most `cap` of them. */
  lemma {:induction false} PositionalKeepsTokens<T>(text: string, i: nat, n: nat, start: nat, cap: nat, kept: seq<T>,
                                                    at: seq<Option<Read<T>>>, ts: seq<T>)
    requires i <= |text| && ReadsForward(text, at)
    requires Tokens(text, i, at) == Ok(ts)
    requires |kept| <= cap
    ensures Positional(text, i, n, start, cap, kept, at) == Ok(kept + Take(Keep(ts, n, start), cap - |kept|))
    decreases |text| - i
  {
    var j := NextStart(text, i);
    if j == |text| || |kept| >= cap {
      PositionalKeepsBase(text, i, n, start, cap, kept, at, ts);
    } else {
      var rest := TokensUnfold(text, i, at, ts);
      var v := at[j].value.value;
      var kept' := if n >= start then kept + [v] else kept;
      PositionalKeepsTokens(text, j + at[j].value.width, n + 1, start, cap, kept', at, rest);
      PositionalKeepsStep(text, i, n, start, cap, kept, at, ts, rest);
    }
  }

  /** The base cases of PositionalKeepsTokens: no token is left, or the cap
      is reached. */
  lemma PositionalKeepsBase<T>(text: string, i: nat, n: nat, start: nat, cap: nat, kept: seq<T>,
                               at: seq<Option<Read<T>>>, ts: seq<T>)
    requires i <= |text| && ReadsForward(text, at)
    requires Tokens(text, i, at) == Ok(ts)
    requires |kept| <= cap
    requires NextStart(text, i) == |text| || |kept| >= cap
    ensures Positional(text, i, n, start, cap, kept, at) == Ok(kept + Take(Keep(ts, n, start), cap - |kept|))
  {
    if NextStart(text, i) == |text| {
      assert ts == [];
    }
    assert kept + [] == kept;
  }

  /** The step of PositionalKeepsTokens: what the loop keeps after the first
      token, put together with that token. */
  lemma PositionalKeepsStep<T>(text: string, i: nat, n: nat, start: nat, cap: nat, kept: seq<T>,
                               at: seq<Option<Read<T>>>, ts: seq<T>, rest: seq<T>)
    requires i <= |text| && ReadsForward(text, at)
    requires NextStart(text, i) < |text| && |kept| < cap
    requires at[NextStart(text, i)].Some?
    requires var j := NextStart(text, i);
      var v := at[j].value.value;
      var kept' := if n >= start then kept + [v] else kept;
      && ts == [v] + rest
      && Positional(text, j + at[j].value.width, n + 1, start, cap, kept', at)
         == Ok(kept' + Take(Keep(rest, n + 1, start), cap - |kept'|))
    ensures Positional(text, i, n, start, cap, kept, at) == Ok(kept + Take(Keep(ts, n, start), cap - |kept|))
  {
    var j := NextStart(text, i);
    PositionalUnfold(text, i, n, start, cap, kept, at);
    KeepTakeCombine(kept, at[j].value.value, rest, n, start, cap);
  }

  /** Keeping the first token (or not) and then the rest gives what keeping
      from the whole list gives. */
  lemma KeepTakeCombine<T>(kept: seq<T>, v: T, rest: seq<T>, n: nat, start: nat, cap: nat)
    requires |kept| < cap
    ensures n >= start ==>
      (kept + [v]) + Take(Keep(rest, n + 1, start), cap - |kept| - 1) == kept + Take(Keep([v] + rest, n, start), cap - |kept|)
    ensures n < start ==>
      kept + Take(Keep(rest, n + 1, start), cap - |kept|) == kept + Take(Keep([v] + rest, n, start), cap - |kept|)
  {
    KeepTakeStep(v, rest, n, start, cap - |kept|);
    if n >= start {
      var tail := Take(Keep(rest, n + 1, start), cap - |kept| - 1);
      assert kept + ([v] + tail) == (kept + [v]) + tail;
    }
  }

  /** How keeping and taking treat the first token of a list. */
  lemma KeepTakeStep<T>(v: T, rest: seq<T>, n: nat, start: nat, k: nat)
    requires k >= 1
    ensures n >= start ==> Take(Keep([v] + rest, n, start), k) == [v] + Take(Keep(rest, n + 1, start), k - 1)
    ensures n < start ==> Keep([v] + rest, n, start) == Keep(rest, n + 1, start)
  {
    if n >= start {
      if k - 1 < |rest| {
        assert ([v] + rest)[..k] == [v] + rest[..k - 1];
      }
    } else if start - n < |[v] + rest| {
      assert ([v] + rest)[start - n..] == rest[start - n - 1..];
    }
  }

  /** The positional loop below its cap, at a token that parses, goes on
      after that token. */
  lemma PositionalUnfold<T>(text: string, i: nat, n: nat, start: nat, cap: nat, kept: seq<T>,
                            at: seq<Option<Read<T>>>)
    requires i <= |text| && ReadsForward(text, at)
    requires NextStart(text, i) < |text| && |kept| < cap
    requires at[NextStart(text, i)].Some?
    ensures var j := NextStart(text, i);
      var v := at[j].value.value;
      && j + at[j].value.width <= |text|
      && Positional(text, i, n, start, cap, kept, at)
         == Positional(text, j + at[j].value.width, n + 1, start, cap, if n >= start then kept + [v] else kept, at)
  {
  }

  /** The first token of a scan that succeeds parses, and the scan goes on
      successfully after it. */
  lemma TokensUnfold<T>(text: string, i: nat, at: seq<Option<Read<T>>>, ts: seq<T>) returns (rest: seq<T>)
    requires i <= |text| && ReadsForward(text, at)
    requires Tokens(text, i, at) == Ok(ts)
    requires NextStart(text, i) < |text|
    ensures at[NextStart(text, i)].Some?
    ensures var j := NextStart(text, i);
      && j + at[j].value.width <= |text|
      && Tokens(text, j + at[j].value.width, at) == Ok(rest)
      && ts == [at[j].value.value] + rest
  {
    var j := NextStart(text, i);
    rest := Tokens(text, j + at[j].value.width, at).value;
  }

  /** The positional loop never stores more than `cap` values (given it
      starts with at most that many). */
  lemma {:induction false} PositionalBound<T>(text: string, i: nat, n: nat, start: nat, cap: nat, kept: seq<T>,
                                              at: seq<Option<Read<T>>>)
    requires i <= |text| && ReadsForward(text, at)
    requires |kept| <= cap
    ensures Positional(text, i, n, start, cap, kept, at).Ok? ==>
      |Positional(text, i, n, start, cap, kept, at).value| <= cap
    decreases |text| - i
  {
    var j := NextStart(text, i);
    if j < |text| && |kept| < cap && at[j].Some? {
      var v := at[j].value.value;
      PositionalBound(text, j + at[j].value.width, n + 1, start, cap, if n >= start then kept + [v] else kept, at);
    }
  }

  /** The scan of a whole line from the first position: when every token
      parses, the result is the tokens from index `start` on, cut to `cap`. */
  lemma PositionalResult<T>(text: string, start: nat, cap: nat, at: seq<Option<Read<T>>>, ts: seq<T>)
    requires ReadsForward(text, at)
    requires Tokens(text, 0, at) == Ok(ts)
    ensures Positional(text, 0, 0, start, cap, [], at) == Ok(Take(Keep(ts, 0, start), cap))
    ensures |Take(Keep(ts, 0, start), cap)| <= cap
  {
    PositionalKeepsTokens(text, 0, 0, start, cap, [], at, ts);
    assert [] + Take(Keep(ts, 0, start), cap) == Take(Keep(ts, 0, start), cap);
  }

  /** A place where the scan may read a number: a digit, '.', or the end. */
  predicate AtStart(text: string, p: nat)
  {
    p <= |text| && (p == |text| || IsNumberStart(text[p]))
  }

  /** The positional loop first skips to where a number may begin. */
  lemma PositionalSkips<T>(text: string, i: nat, n: nat, start: nat, cap: nat, kept: seq<T>,
                           at: seq<Option<Read<T>>>)
    requires i <= |text| && ReadsForward(text, at)
    ensures AtStart(text, NextStart(text, i))
    ensures Positional(text, i, n, start, cap, kept, at) == Positional(text, NextStart(text, i), n, start, cap, kept, at)
  {
    var j := NextStart(text, i);
    assert NextStart(text, j) == j;
  }

  /** The positional loop stops at the end of the text or at its cap. */
  lemma PositionalStops<T>(text: string, p: nat, n: nat, start: nat, cap: nat, kept: seq<T>,
                           at: seq<Option<Read<T>>>)
    requires AtStart(text, p) && ReadsForward(text, at)
    requires p == |text| || |kept| >= cap
    ensures Positional(text, p, n, start, cap, kept, at) == Ok(kept)
  {
  }

  /** The positional loop exits at a token that does not parse. */
  lemma PositionalAborts<T>(text: string, p: nat, n: nat, start: nat, cap: nat, kept: seq<T>,
                            at: seq<Option<Read<T>>>)
    requires p < |text| && AtStart(text, p) && ReadsForward(text, at)
    requires |kept| < cap && at[p].None?
    ensures Positional(text, p, n, start, cap, kept, at) == Abort
  {
  }

  /** The positional loop moves past a token that parses, to the next place
      where a number may begin. */
  lemma PositionalAdvances<T>(text: string, p: nat, n: nat, start: nat, cap: nat, kept: seq<T>,
                              at: seq<Option<Read<T>>>, kept': seq<T>, q: nat)
    requires p < |text| && AtStart(text, p) && ReadsForward(text, at)
    requires |kept| < cap && at[p].Some?
    requires kept' == if n >= start then kept + [at[p].value.value] else kept
    requires q == NextStart(text, p + at[p].value.width)
    ensures p < q && AtStart(text, q)
    ensures Positional(text, p, n, start, cap, kept, at) == Positional(text, q, n + 1, start, cap, kept', at)
  {
    assert NextStart(text, p) == p;
    PositionalSkips(text, p + at[p].value.width, n + 1, start, cap, kept', at);
  }

  /** The positional path of Extract::parse, with the parser's result at each
      position of the line. */
  method ParsePositional<T(==)>(text: string, start: nat, cap: nat, at: seq<Option<Read<T>>>)
    returns (r: Outcome<seq<T>>)
    requires ReadsForward(text, at)
    ensures r == Positional(text, 0, 0, start, cap, [], at)
  {
    ghost var result := Positional(text, 0, 0, start, cap, [], at);
    var p := Advance(text, 0);
    PositionalSkips(text, 0, 0, start, cap, [], at);
    var n: nat := 0;
    var kept: seq<T> := [];
    while p < |text| && |kept| < cap
      invariant AtStart(text, p)
      invariant Positional(text, p, n, start, cap, kept, at) == result
      decreases |text| - p
    {
      var parsed := at[p];
      if parsed.None? {
        PositionalAborts(text, p, n, start, cap, kept, at);
        return Abort;
      }
      var kept' := if n >= start then kept + [parsed.value.value] else kept;
      var q := Advance(text, p + parsed.value.width);
      PositionalAdvances(text, p, n, start, cap, kept, at, kept', q);
      kept := kept';
      n := n + 1;
      p := q;
    }
    PositionalStops(text, p, n, start, cap, kept, at);
    r := Ok(kept);
  }

  // ---- the regular-expression path ----

  /** A capture group of a match: its position and length in the text. */
  datatype Group = Group(position: nat, length: nat)

  /** std::regex_search as an uninterpreted matcher: the groups of the first
      match (group 0 being the whole match), or None when nothing matches. */
  datatype Regex = Regex(search: string -> Option<seq<Group>>)

  /** A match has its whole-match group and every group lies inside the text. */
  predicate GroupsInside(text: string, groups: seq<Group>)
  {
    |groups| >= 1 && forall g | g in groups :: g.position + g.length <= |text|
  }

  function GroupText(text: string, g: Group): string
    requires g.position + g.length <= |text|
  {
    text[g.position..g.position + g.length]
  }

  /** The group loop as written, from group i: group i is parsed (exiting when
      it is not a number) and stored at index i - 1 of the N-element array
      (`cap`), which is a write past the array's end once i - 1 >= N. */
  function RegexFrom<T>(text: string, groups: seq<Group>, i: nat, cap: nat, values: seq<T>,
                        fromChars: string -> Option<Read<T>>): Outcome<seq<T>>
    requires GroupsInside(text, groups) && 1 <= i <= |groups|
    decreases |groups| - i
  {
    if i == |groups| then Ok(values)
    else match fromChars(GroupText(text, groups[i]))
      case None => Abort
      case Some(read) =>
        if i - 1 >= cap then Overrun
        else RegexFrom(text, groups, i + 1, cap, values + [read.value], fromChars)
  }

  /** The regular-expression path: no match stores nothing; a match stores
      group i at index i - 1 and the count is the number of groups less one. */
  function RegexResult<T>(text: string, m: Option<seq<Group>>, cap: nat,
                          fromChars: string -> Option<Read<T>>): Outcome<seq<T>>
    requires m.Some? ==> GroupsInside(text, m.value)
  {
    if m.None? then Ok([]) else RegexFrom(text, m.value, 1, cap, [], fromChars)
  }

  /** Every group of the match is a number. */
  predicate AllParse<T>(text: string, groups: seq<Group>, fromChars: string -> Option<Read<T>>)
    requires GroupsInside(text, groups)
  {
    forall i | 0 <= i < |groups| :: fromChars(GroupText(text, groups[i])).Some?
  }

  /** As written: a match with more capture groups than the array holds writes
      past its end, whatever the groups contain. */
  lemma {:induction false} TooManyGroupsOverrun<T>(text: string, groups: seq<Group>, i: nat, cap: nat, values: seq<T>,
                                                   fromChars: string -> Option<Read<T>>)
    requires GroupsInside(text, groups) && 1 <= i <= |groups|
    requires AllParse(text, groups, fromChars)
    requires |groups| - 1 > cap && i - 1 <= cap
    ensures RegexFrom(text, groups, i, cap, values, fromChars) == Overrun
    decreases |groups| - i
  {
    assert fromChars(GroupText(text, groups[i])).Some?;
    if i - 1 < cap {
      var v := fromChars(GroupText(text, groups[i])).value.value;
      TooManyGroupsOverrun(text, groups, i + 1, cap, values + [v], fromChars);
    }
  }

  /** The group loop with the evidently intended bound: it stops after `cap`
      groups. */
  function RegexFromCapped<T>(text: string, groups: seq<Group>, i: nat, cap: nat, values: seq<T>,
                              fromChars: string -> Option<Read<T>>): (r: Outcome<seq<T>>)
    requires GroupsInside(text, groups) && 1 <= i <= |groups|
    requires |values| == i - 1 && |values| <= cap
    ensures r != Overrun
    ensures r.Ok? ==> |r.value| <= cap && values <= r.value
    ensures r.Ok? ==> |r.value| == if |groups| - 1 < cap then |groups| - 1 else cap
    decreases |groups| - i
  {
    if i == |groups| || i - 1 >= cap then Ok(values)
    else match fromChars(GroupText(text, groups[i]))
      case None => Abort
      case Some(read) =>
        RegexFromCapped(text, groups, i + 1, cap, values + [read.value], fromChars)
  }

  /** With at most `cap` groups the bounded loop does exactly what the code as
      written does. */
  lemma {:induction false} CappedAgreesWhenGroupsFit<T>(text: string, groups: seq<Group>, i: nat, cap: nat, values: seq<T>,
                                                        fromChars: string -> Option<Read<T>>)
    requires GroupsInside(text, groups) && 1 <= i <= |groups|
    requires |values| == i - 1 && |values| <= cap
    requires |groups| - 1 <= cap
    ensures RegexFromCapped(text, groups, i, cap, values, fromChars) == RegexFrom(text, groups, i, cap, values, fromChars)
    decreases |groups| - i
  {
    if i < |groups| && fromChars(GroupText(text, groups[i])).Some? {
      var v := fromChars(GroupText(text, groups[i])).value.value;
      CappedAgreesWhenGroupsFit(text, groups, i + 1, cap, values + [v], fromChars);
    }
  }

  /** What the group loop from group i stores: it succeeds exactly when every
      remaining group is a number and they all fit the array, and then holds
      the values already stored followed by one value per remaining group,
      group k's number at index k - 1. */
  lemma {:induction false} RegexFromContents<T>(text: string, groups: seq<Group>, i: nat, cap: nat, values: seq<T>,
                                                fromChars: string -> Option<Read<T>>)
    requires GroupsInside(text, groups) && 1 <= i <= |groups|
    requires |values| == i - 1
    ensures var r := RegexFrom(text, groups, i, cap, values, fromChars);
      r.Ok? <==> (forall k | i <= k < |groups| :: fromChars(GroupText(text, groups[k])).Some?)
                 && (i == |groups| || |groups| - 1 <= cap)
    ensures var r := RegexFrom(text, groups, i, cap, values, fromChars);
      r.Ok? ==> && |r.value| == |groups| - 1
                && r.value[..i - 1] == values
                && forall k | i <= k < |groups| ::
                     r.value[k - 1] == fromChars(GroupText(text, groups[k])).value.value
    decreases |groups| - i
  {
    if i < |groups| && fromChars(GroupText(text, groups[i])).Some? && i - 1 < cap {
      var v := fromChars(GroupText(text, groups[i])).value.value;
      RegexFromContents(text, groups, i + 1, cap, values + [v], fromChars);
      var r := RegexFrom(text, groups, i + 1, cap, values + [v], fromChars);
      if r.Ok? {
        assert r.value[..i - 1] == (values + [v])[..i - 1];
        assert r.value[i - 1] == (values + [v])[i - 1];
      }
    }
  }

  /** The regular-expression path stores nothing without a match; with one it
      succeeds exactly when every capture group is a number and there are no
      more of them than the array holds, and then stores capture group k's
      number at index k - 1. */
  lemma RegexResultContents<T>(text: string, m: Option<seq<Group>>, cap: nat,
                               fromChars: string -> Option<Read<T>>)
    requires m.Some? ==> GroupsInside(text, m.value)
    ensures m.None? ==> RegexResult(text, m, cap, fromChars) == Ok([])
    ensures m.Some? ==>
      var r := RegexResult(text, m, cap, fromChars);
      && (r.Ok? <==> (forall k | 1 <= k < |m.value| :: fromChars(GroupText(text, m.value[k])).Some?)
                     && |m.value| - 1 <= cap)
      && (r.Ok? ==> |r.value| == |m.value| - 1
                    && forall k | 1 <= k < |m.value| ::
                         r.value[k - 1] == fromChars(GroupText(text, m.value[k])).value.value)
  {
    if m.Some? {
      RegexFromContents(text, m.value, 1, cap, [], fromChars);
    }
  }

  /** The regular-expression path of Extract::parse, as written. */
  method ParseRegex<T(==)>(text: string, m: Option<seq<Group>>, cap: nat, fromChars: string -> Option<Read<T>>)
    returns (r: Outcome<seq<T>>)
    requires m.Some? ==> GroupsInside(text, m.value)
    ensures r == RegexResult(text, m, cap, fromChars)
  {
    if m.None? {
      return Ok([]);
    }
    var groups := m.value;
    var values: seq<T> := [];
    var i := 1;
    while i < |groups|
      invariant 1 <= i <= |groups| && |values| == i - 1
      invariant RegexFrom(text, groups, i, cap, values, fromChars) == RegexFrom(text, groups, 1, cap, [], fromChars)
    {
      var parsed := fromChars(GroupText(text, groups[i]));
      if parsed.None? {
        return Abort;
      }
      if i - 1 >= cap {
        return Overrun;
      }
      values := values + [parsed.value.value];
      i := i + 1;
    }
    r := Ok(values);
  }

  // ---- the Extract object ----

  /** What an Extract holds: a start position (the unsigned alternative) or a
      regular expression. */
  datatype Mode = Position(start: u32) | Pattern(re: Regex)

  class Extract {
    var mode: Mode

    /** A default Extract holds the unsigned 0: keep tokens from the first. */
    constructor()
      ensures mode == Position(0)
    {
      mode := Position(0);
    }

    /** Extract::set: replaces the alternative held. */
    method Set(m: Mode)
      modifies this
      ensures mode == m
    {
      mode := m;
    }

    /** Extract::parse<T,N>(text) with N = `cap`: the regular-expression path
        when a regex is held, else the positional path from the held start. */
    method Parse<T(==)>(text: string, cap: nat, fromChars: string -> Option<Read<T>>) returns (r: Outcome<seq<T>>)
      requires Consumes(fromChars)
      requires mode.Pattern? && mode.re.search(text).Some? ==> GroupsInside(text, mode.re.search(text).value)
      ensures mode.Position? ==> r == Positional(text, 0, 0, mode.start, cap, [], ReadsOf(text, fromChars))
      ensures mode.Pattern? ==> r == RegexResult(text, mode.re.search(text), cap, fromChars)
    {
      if mode.Pattern? {
        r := ParseRegex(text, mode.re.search(text), cap, fromChars);
      } else {
        r := ParsePositional(text, mode.start, cap, ReadsOf(text, fromChars));
      }
    }
  }
}
