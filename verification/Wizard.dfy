// The resume wizard: pre-supplied --field answers, prompting for the rest of a
// step's form, and the loop over steps (cmd/dicode/follow.go, promptResumeInput
// in cmd/dicode/main.go). What a property converts to, how answers are marshalled
// and what a schema accepts are parameters of a form.
module Wizard {
  import opened Picked
  import opened Records
  import opened Strings

  datatype Json = Json(text: string)

  type Values = map<string, Json>

  datatype Entry = Entry(name: string, default: Option<Json>, coerce: string -> Option<Json>)

  datatype Form = Form(entries: seq<Entry>, required: set<string>,
                       marshal: Values -> Option<string>, valid: string -> bool)

  function Names(entries: seq<Entry>): set<string> {
    set i | 0 <= i < |entries| :: entries[i].name
  }

  // ---- The input stream -----------------------------------------------------

  // Whole lines, what follows the last newline, and whether the stream then ends
  // or breaks.
  datatype Stream = Stream(lines: seq<string>, partial: string, broken: bool)

  datatype Status = Newline | Eof | Broken

  function ReadString(s: Stream): (string, Status, Stream) {
    if s.lines != [] then (s.lines[0], Newline, s.(lines := s.lines[1..]))
    else (s.partial, if s.broken then Broken else Eof, s.(partial := ""))
  }

  function Remaining(s: Stream): nat {
    |s.lines| + if s.partial == "" then 0 else 1
  }

  predicate Blank(raw: string) {
    forall c :: c in raw ==> c in " \t\r\n"
  }

  function TrimReturns(line: string): string {
    if line != "" && line[|line| - 1] in "\r\n" then TrimReturns(line[..|line| - 1]) else line
  }

  // What is cut off are the carriage returns and newlines at the end, all of them.
  lemma {:induction false} TrimReturnsExactly(line: string) returns (cut: string)
    ensures line == TrimReturns(line) + cut && (forall c :: c in cut ==> c == '\r' || c == '\n')
    ensures
      var kept := TrimReturns(line);
      kept != "" ==> kept[|kept| - 1] != '\r' && kept[|kept| - 1] != '\n'
  {
    if line != "" && line[|line| - 1] in "\r\n" {
      cut := TrimReturnsExactly(line[..|line| - 1]);
      cut := cut + [line[|line| - 1]];
    } else {
      cut := "";
    }
  }

  // ---- Prompting ------------------------------------------------------------

  datatype Asked = Answer(value: Json) | Skipped | Aborted

  function Ask(e: Entry, required: bool, s: Stream): (Asked, Stream)
    decreases |s.lines|
  {
    var (line, status, rest) := ReadString(s);
    var raw := TrimReturns(line);
    if status.Broken? then (Aborted, rest)
    else if Blank(raw) then
      if e.default.Some? then (Answer(e.default.value), rest)
      else if !required then (Skipped, rest)
      else if status.Eof? then (Aborted, rest)
      else Ask(e, required, rest)
    else if e.coerce(raw).Some? then (Answer(e.coerce(raw).value), rest)
    else if status.Eof? then (Aborted, rest)
    else Ask(e, required, rest)
  }

  // The answers to the entries in order, on top of values; None when aborted.
  function AskAll(entries: seq<Entry>, required: set<string>, s: Stream, values: Values): (Option<Values>, Stream)
    decreases |entries|
  {
    if entries == [] then (Some(values), s)
    else
      var e := entries[0];
      var (asked, rest) := Ask(e, e.name in required, s);
      match asked
      case Aborted => (None, rest)
      case Skipped => AskAll(entries[1..], required, rest, values)
      case Answer(v) => AskAll(entries[1..], required, rest, values[e.name := v])
  }

  // ---- What an answer is, told from the lines of the stream ------------------

  // A line without an answer in it: it does not convert, or it is blank where an
  // answer is required and there is no default.
  predicate Refused(e: Entry, required: bool, line: string) {
    var raw := TrimReturns(line);
    if forall c :: c in raw ==> c == ' ' || c == '\t' || c == '\r' || c == '\n'
    then e.default == None && required
    else e.coerce(raw) == None
  }

  // The answer a line that is not refused gives: the default for a blank line, else
  // what was typed, converted.
  predicate Answered(e: Entry, line: string, asked: Asked) {
    var raw := TrimReturns(line);
    if forall c :: c in raw ==> c == ' ' || c == '\t' || c == '\r' || c == '\n'
    then asked == (if e.default == None then Skipped else Answer(e.default.value))
    else asked.Answer? && e.coerce(raw) == Some(asked.value)
  }

  // Asked at s, asked is decided by line n, the first that is not refused, and the
  // stream goes on right behind it. Line |s.lines| is what follows the last newline;
  // when that is refused too, or the stream breaks there, there is no answer.
  predicate DecidedBy(e: Entry, required: bool, s: Stream, n: nat, asked: Asked, rest: Stream) {
    && n <= |s.lines| && (forall i :: 0 <= i < n ==> Refused(e, required, s.lines[i]))
    && if n < |s.lines| then
         && !Refused(e, required, s.lines[n]) && Answered(e, s.lines[n], asked)
         && rest == Stream(s.lines[n + 1..], s.partial, s.broken)
       else
         && rest == Stream([], "", s.broken)
         && if s.broken || Refused(e, required, s.partial) then asked == Aborted else Answered(e, s.partial, asked)
  }

  lemma {:induction false} AskIsDecided(e: Entry, required: bool, s: Stream) returns (n: nat)
    ensures DecidedBy(e, required, s, n, Ask(e, required, s).0, Ask(e, required, s).1)
    decreases |s.lines|
  {
    if s.lines == [] {
      n := 0;
    } else if Refused(e, required, s.lines[0]) {
      var later := s.(lines := s.lines[1..]);
      n := AskIsDecided(e, required, later);
      n := n + 1;
      assert s.lines[1..][n - 1..] == s.lines[n..];
    } else {
      n := 0;
    }
  }

  // Which line that is, and so the answer, is determined.
  lemma DecidedOnce(e: Entry, required: bool, s: Stream, n: nat, asked: Asked, rest: Stream,
                    m: nat, asked': Asked, rest': Stream)
    requires DecidedBy(e, required, s, n, asked, rest) && DecidedBy(e, required, s, m, asked', rest')
    ensures n == m && asked == asked' && rest == rest'
  {
  }

  // A whole form: each property is asked where the one before left the stream, up to
  // the first without an answer.
  ghost predicate FormDecided(entries: seq<Entry>, required: set<string>, asked: seq<Asked>, at: seq<Stream>) {
    && |asked| <= |entries| && |at| == |asked| + 1
    && (forall i, j :: 0 <= i < j < |at| && j == i + 1 ==>
          DecidedSomewhere(entries[i], entries[i].name in required, at[i], asked[i], at[j]))
    && (forall i :: 0 <= i < |asked| - 1 ==> asked[i] != Aborted)
    && (|asked| < |entries| ==> asked != [] && asked[|asked| - 1] == Aborted)
  }

  ghost predicate DecidedSomewhere(e: Entry, required: bool, s: Stream, asked: Asked, rest: Stream) {
    exists n :: DecidedBy(e, required, s, n, asked, rest)
  }

  // The value of a name is the last answer given to a property of that name.
  function LastAnswer(entries: seq<Entry>, asked: seq<Asked>, values: Values, name: string): Option<Json>
    requires |asked| <= |entries|
  {
    if asked == [] then (if name in values then Some(values[name]) else None)
    else
      var k := |asked| - 1;
      if entries[k].name == name && asked[k].Answer? then Some(asked[k].value)
      else LastAnswer(entries, asked[..k], values, name)
  }

  lemma FormGoesOn(entries: seq<Entry>, required: set<string>, first: Asked, s: Stream,
                   asked: seq<Asked>, at: seq<Stream>)
    requires entries != [] && FormDecided(entries[1..], required, asked, at) && first != Aborted
    requires DecidedSomewhere(entries[0], entries[0].name in required, s, first, at[0])
    ensures FormDecided(entries, required, [first] + asked, [s] + at)
  {
    var all, places := [first] + asked, [s] + at;
    forall i, j | 0 <= i < j < |places| && j == i + 1
      ensures DecidedSomewhere(entries[i], entries[i].name in required, places[i], all[i], places[j])
    {
      if i > 0 { assert places[i] == at[i - 1] && places[j] == at[j - 1] && entries[1..][i - 1] == entries[i]; }
    }
  }

  lemma {:induction false} FirstAnswer(
    entries: seq<Entry>, first: Asked, asked: seq<Asked>, values: Values, name: string)
    requires |asked| + 1 <= |entries|
    ensures
      var next := if first.Answer? then values[entries[0].name := first.value] else values;
      LastAnswer(entries, [first] + asked, values, name) == LastAnswer(entries[1..], asked, next, name)
    decreases |asked|
  {
    var all := [first] + asked;
    if asked == [] {
      assert all[..0] == [];
      assert LastAnswer(entries, [], values, name) == if name in values then Some(values[name]) else None;
    } else {
      var k := |asked| - 1;
      assert all[..k + 1] == [first] + asked[..k];
      FirstAnswer(entries, first, asked[..k], values, name);
    }
  }

  ghost predicate HoldsAnswers(entries: seq<Entry>, asked: seq<Asked>, values: Values, answers: Values) {
    |asked| == |entries| && forall name ::
      LastAnswer(entries, asked, values, name) == if name in answers then Some(answers[name]) else None
  }

  // A round of prompting from s, on top of values, comes to result and leaves rest:
  // the form is asked as above, and each name has the value of the last answer to a
  // property of that name.
  ghost predicate RoundDecided(entries: seq<Entry>, required: set<string>, s: Stream, values: Values,
                               result: Option<Values>, rest: Stream, asked: seq<Asked>, at: seq<Stream>) {
    && FormDecided(entries, required, asked, at) && at[0] == s && at[|asked|] == rest
    && (result == None <==> asked != [] && asked[|asked| - 1] == Aborted)
    && (result.Some? ==> HoldsAnswers(entries, asked, values, result.value))
  }

  lemma RoundGoesOn(entries: seq<Entry>, required: set<string>, first: Asked, s: Stream, values: Values,
                    result: Option<Values>, rest: Stream, asked: seq<Asked>, at: seq<Stream>)
    requires entries != [] && first != Aborted
    requires
      var next := if first.Answer? then values[entries[0].name := first.value] else values;
      at != [] && RoundDecided(entries[1..], required, at[0], next, result, rest, asked, at)
    requires DecidedSomewhere(entries[0], entries[0].name in required, s, first, at[0])
    ensures RoundDecided(entries, required, s, values, result, rest, [first] + asked, [s] + at)
  {
    FormGoesOn(entries, required, first, s, asked, at);
    if result.Some? {
      forall name { FirstAnswer(entries, first, asked, values, name); }
    }
  }

  lemma {:induction false} RoundIsDecided(entries: seq<Entry>, required: set<string>, s: Stream, values: Values)
    returns (asked: seq<Asked>, at: seq<Stream>)
    ensures
      var (result, rest) := AskAll(entries, required, s, values);
      RoundDecided(entries, required, s, values, result, rest, asked, at)
    decreases |entries|
  {
    if entries == [] {
      asked, at := [], [s];
    } else {
      var e := entries[0];
      var (first, rest) := Ask(e, e.name in required, s);
      var n := AskIsDecided(e, e.name in required, s);
      assert DecidedSomewhere(e, e.name in required, s, first, rest);
      if first == Aborted {
        asked, at := [first], [s, rest];
      } else {
        var next := if first.Answer? then values[e.name := first.value] else values;
        var later, places := RoundIsDecided(entries[1..], required, rest, next);
        asked, at := [first] + later, [s] + places;
        var (result, end) := AskAll(entries[1..], required, rest, next);
        RoundGoesOn(entries, required, first, s, values, result, end, later, places);
      }
    }
  }

  // A value the property may get: its default or what some text converts to.
  ghost predicate Possible(e: Entry, v: Json) {
    e.default == Some(v) || exists raw: string :: e.coerce(raw) == Some(v)
  }

  lemma {:induction false} AskedIsPossible(e: Entry, required: bool, s: Stream)
    ensures
      var asked := Ask(e, required, s).0;
      (asked.Answer? ==> Possible(e, asked.value)) && (required ==> !asked.Skipped?)
    ensures Remaining(Ask(e, required, s).1) < Remaining(s) || Remaining(s) == 0
    ensures Ask(e, required, s).1.broken == s.broken
    decreases |s.lines|
  {
    var (line, status, rest) := ReadString(s);
    if status.Newline? { AskedIsPossible(e, required, rest); }
  }

  ghost predicate PossibleFor(entries: seq<Entry>, name: string, v: Json) {
    exists i :: 0 <= i < |entries| && entries[i].name == name && Possible(entries[i], v)
  }

  // Values only grow while prompting, every required property asked for has one,
  // and every new one is possible for a property of that name.
  lemma {:induction false} AnswersCover(entries: seq<Entry>, required: set<string>, s: Stream, values: Values)
    requires AskAll(entries, required, s, values).0.Some?
    ensures
      var answers := AskAll(entries, required, s, values).0.value;
      && values.Keys <= answers.Keys <= values.Keys + Names(entries)
      && Names(entries) * required <= answers.Keys
      && forall n :: n in answers ==> (n in values && answers[n] == values[n]) || PossibleFor(entries, n, answers[n])
    decreases |entries|
  {
    if entries != [] {
      var e, more := entries[0], entries[1..];
      var (asked, rest) := Ask(e, e.name in required, s);
      AskedIsPossible(e, e.name in required, s);
      var next := if asked.Answer? then values[e.name := asked.value] else values;
      AnswersCover(more, required, rest, next);
      var answers := AskAll(entries, required, s, values).0.value;
      assert entries == [e] + more;
      forall n | n in answers && !(n in values && answers[n] == values[n])
        ensures PossibleFor(entries, n, answers[n])
      {
        if n in next && answers[n] == next[n] {
          assert entries[0].name == n && Possible(entries[0], answers[n]);
        } else {
          var i :| 0 <= i < |more| && more[i].name == n && Possible(more[i], answers[n]);
          assert entries[i + 1] == more[i];
        }
      }
    }
  }

  // A round of prompting uses up input, or what it comes to does not depend on
  // the input any more.
  lemma {:induction false} RoundProgresses(entries: seq<Entry>, required: set<string>, s: Stream, values: Values)
    ensures Remaining(AskAll(entries, required, s, values).1) <= Remaining(s)
    ensures AskAll(entries, required, s, values).1.broken == s.broken
    ensures
      || Remaining(AskAll(entries, required, s, values).1) < Remaining(s)
      || AskAll(entries, required, s, values).0 == AskAll(entries, required, Stream([], "", s.broken), values).0
    decreases |entries|
  {
    if entries != [] {
      var e := entries[0];
      var (asked, rest) := Ask(e, e.name in required, s);
      AskedIsPossible(e, e.name in required, s);
      if Remaining(s) == 0 { assert s == Stream([], "", s.broken); }
      match asked {
        case Aborted =>
        case Skipped => RoundProgresses(entries[1..], required, rest, values);
        case Answer(v) => RoundProgresses(entries[1..], required, rest, values[e.name := v]);
      }
    }
  }

  class Reader {
    var stream: Stream

    constructor (stream: Stream)
      ensures this.stream == stream
    {
      this.stream := stream;
    }

    method ReadLine() returns (line: string, status: Status)
      modifies this
      ensures (line, status, stream) == ReadString(old(stream))
    {
      if stream.lines != [] {
        line, status := stream.lines[0], Newline;
        stream := stream.(lines := stream.lines[1..]);
      } else {
        line, status := stream.partial, if stream.broken then Broken else Eof;
        stream := stream.(partial := "");
      }
    }

    method PromptResumeInput(entries: seq<Entry>, required: set<string>) returns (answers: Option<Values>)
      modifies this
      ensures (answers, stream) == AskAll(entries, required, old(stream), map[])
      ensures exists asked, at :: RoundDecided(entries, required, old(stream), map[], answers, stream, asked, at)
    {
      ghost var asked, at := RoundIsDecided(entries, required, stream, map[]);
      var values: Values := map[];
      for i := 0 to |entries|
        invariant AskAll(entries[i..], required, stream, values) == AskAll(entries, required, old(stream), map[])
      {
        var e := entries[i];
        assert entries[i..][1..] == entries[i + 1..];
        ghost var start := stream;
        while true
          invariant Ask(e, e.name in required, stream) == Ask(e, e.name in required, start)
          decreases |stream.lines|
        {
          var line, status := ReadLine();
          if status.Broken? { return None; }
          var raw := TrimReturns(line);
          if Blank(raw) {
            if e.default.Some? {
              values := values[e.name := e.default.value];
            } else if e.name in required {
              if status.Eof? { return None; }
              continue;
            }
            break;
          }
          var v := e.coerce(raw);
          if v == None {
            if status.Eof? { return None; }
            continue;
          }
          values := values[e.name := v.value];
          break;
        }
      }
      assert entries[|entries|..] == [];
      return Some(values);
    }
  }

  // ---- Pre-supplied answers -------------------------------------------------

  function TrimSpace(s: string): string {
    if s != "" && s[0] in " \t\r\n" then TrimSpace(s[1..])
    else if s != "" && s[|s| - 1] in " \t\r\n" then TrimSpace(s[..|s| - 1])
    else s
  }

  // The name of a name=value argument, none for an invalid one.
  function FieldName(field: string): Option<string> {
    var i := IndexOf(field, '=');
    if i < 0 || TrimSpace(field[..i]) == "" then None else Some(TrimSpace(field[..i]))
  }

  function FieldValue(field: string): string {
    field[IndexOf(field, '=') + 1..]
  }

  // Blanks are cut off at both ends and nowhere else.
  lemma {:induction false} TrimSpaceExactly(s: string) returns (before: string, after: string)
    ensures s == before + TrimSpace(s) + after && Blank(before + after)
    ensures
      var kept := TrimSpace(s);
      kept != "" ==> !Blank([kept[0]]) && !Blank([kept[|kept| - 1]])
    decreases |s|
  {
    before, after := "", "";
    if s != "" && s[0] in " \t\r\n" {
      before, after := TrimSpaceExactly(s[1..]);
      before := [s[0]] + before;
    } else if s != "" && s[|s| - 1] in " \t\r\n" {
      before, after := TrimSpaceExactly(s[..|s| - 1]);
      after := after + [s[|s| - 1]];
    }
  }

  lemma BlankTrimsToNothing(s: string)
    ensures TrimSpace(s) == "" <==> Blank(s)
  {
    var before, after := TrimSpaceExactly(s);
    var kept := TrimSpace(s);
    if kept == "" {
      assert s == before + after;
    } else {
      assert s[|before|] == kept[0] && !Blank([kept[0]]);
    }
  }

  // An argument is cut at its first "="; what follows is the value as it stands.
  lemma FieldParses(name: string, value: string)
    requires '=' !in name
    ensures FieldName(name) == None
    ensures FieldName(name + "=" + value) == if Blank(name) then None else Some(TrimSpace(name))
    ensures FieldValue(name + "=" + value) == value
  {
    var field := name + "=" + value;
    CutAtFirst(name, '=', value);
    assert field[..|name|] == name && field[|name| + 1..] == value;
    BlankTrimsToNothing(name);
  }

  function FieldNames(fields: seq<string>): seq<Option<string>> {
    seq(|fields|, i requires 0 <= i < |fields| => FieldName(fields[i]))
  }

  function FieldValues(fields: seq<string>): seq<string> {
    seq(|fields|, i requires 0 <= i < |fields| => FieldValue(fields[i]))
  }

  // The names are there and no two are the same.
  predicate Unambiguous(names: seq<Option<string>>) {
    && (forall i :: 0 <= i < |names| ==> names[i].Some?)
    && (forall i, j :: 0 <= i < j < |names| ==> names[i] != names[j])
  }

  predicate Parsed(names: seq<Option<string>>, values: seq<string>, m: map<string, string>)
    requires |names| == |values|
  {
    && Unambiguous(names)
    && (forall i :: 0 <= i < |names| ==> names[i].value in m && m[names[i].value] == values[i])
    && (forall n :: n in m ==> Some(n) in names)
  }

  lemma ParsedNext(names: seq<Option<string>>, values: seq<string>, n: nat, m: map<string, string>)
    requires n < |names| == |values| && Parsed(names[..n], values[..n], m)
    requires names[n].Some? && names[n].value !in m
    ensures Parsed(names[..n + 1], values[..n + 1], m[names[n].value := values[n]])
  {
    assert names[..n + 1] == names[..n] + [names[n]] && values[..n + 1] == values[..n] + [values[n]];
    assert forall i :: 0 <= i < n ==> names[..n][i] != names[n];
  }

  lemma Repeated(names: seq<Option<string>>, values: seq<string>, n: nat, m: map<string, string>)
    requires n < |names| == |values| && Parsed(names[..n], values[..n], m)
    requires names[n].Some? ==> names[n].value in m
    ensures !Unambiguous(names)
  {
    if names[n].Some? {
      var i :| 0 <= i < n && names[..n][i] == names[n];
      assert names[i] == names[n];
    }
  }

  // Fails exactly on an invalid argument or a repeated name; otherwise the pool
  // holds what was given.
  method ParseFields(fields: seq<string>) returns (vals: Option<map<string, string>>)
    ensures vals.Some? <==> Unambiguous(FieldNames(fields))
    ensures vals.Some? ==> Parsed(FieldNames(fields), FieldValues(fields), vals.value)
  {
    ghost var names := FieldNames(fields);
    ghost var values := FieldValues(fields);
    var m: map<string, string> := map[];
    for n := 0 to |fields|
      invariant Parsed(names[..n], values[..n], m)
    {
      var name, value := FieldName(fields[n]), FieldValue(fields[n]);
      assert names[n] == name && values[n] == value;
      if name == None || name.value in m {
        Repeated(names, values, n, m);
        return None;
      }
      ParsedNext(names, values, n, m);
      m := m[name.value := value];
    }
    assert names[..|fields|] == names && values[..|fields|] == values;
    return Some(m);
  }

  class PrefillPool {
    const vals: map<string, string>
    var used: set<string>

    constructor (vals: map<string, string>)
      ensures this.vals == vals && used == {}
    {
      this.vals := vals;
      used := {};
    }

    method Take(name: string) returns (raw: Option<string>)
      modifies this`used
      ensures raw == if name in vals && name !in old(used) then Some(vals[name]) else None
      ensures used == old(used) + if raw.Some? then {name} else {}
    {
      if name in used || name !in vals { return None; }
      used := used + {name};
      return Some(vals[name]);
    }

    function Unused(): set<string>
      reads this
    {
      vals.Keys - used
    }
  }

  // ---- One step -------------------------------------------------------------

  datatype Outcome =
    | Submitted(json: string)
    | NoConsent                         // the stream ended at a confirmation gate
    | BadField                          // a pre-supplied answer does not convert
    | Missing(names: set<string>)
    | Rejected(json: string)
    | Unmarshallable
    | NoAnswer                          // prompting ended without one

  // Some property of this name converts the raw text to v.
  predicate Converts(entries: seq<Entry>, name: string, raw: string, v: Json) {
    exists i :: 0 <= i < |entries| && entries[i].name == name && entries[i].coerce(raw) == Some(v)
  }

  // The answers taken from the pool for a step.
  ghost predicate TakenFor(entries: seq<Entry>, vals: map<string, string>, used: set<string>, pre: Values) {
    && pre.Keys == Names(entries) * vals.Keys - used
    && forall n :: n in pre ==> n in vals && Converts(entries, n, vals[n], pre[n])
  }

  // The input of a step: what was taken from the pool, as it was taken; else a
  // value possible for its property; and every required property there is.
  ghost predicate Completed(form: Form, pre: Values, answers: Values) {
    && pre.Keys <= answers.Keys <= Names(form.entries)
    && Names(form.entries) * form.required <= answers.Keys
    && (forall n :: n in pre ==> answers[n] == pre[n])
    && forall n :: n in answers && n !in pre ==> PossibleFor(form.entries, n, answers[n])
  }

  ghost predicate IsInput(form: Form, pre: Values, json: string) {
    && form.valid(json)
    && ((form.entries == [] && json == "{}")
        || exists answers :: Completed(form, pre, answers) && form.marshal(answers) == Some(json))
  }

  function Unanswered(entries: seq<Entry>, pre: Values): seq<Entry> {
    if entries == [] then []
    else
      var n := |entries| - 1;
      Unanswered(entries[..n], pre) + if entries[n].name in pre then [] else [entries[n]]
  }

  lemma NamesAppend(entries: seq<Entry>, e: Entry)
    ensures Names(entries + [e]) == Names(entries) + {e.name}
  {
    var all := entries + [e];
    assert all[|entries|] == e;
    forall n ensures n in Names(all) <==> n in Names(entries) + {e.name} {
      if n in Names(entries) {
        var i :| 0 <= i < |entries| && entries[i].name == n;
        assert all[i].name == n;
      }
    }
  }

  // at is where the properties without an answer are.
  predicate Open(at: seq<nat>, entries: seq<Entry>, pre: Values) {
    forall i :: 0 <= i < |entries| ==> (i in at <==> entries[i].name !in pre)
  }

  lemma OpenNext(at: seq<nat>, entries: seq<Entry>, open: seq<Entry>, e: Entry, pre: Values)
    requires Picks(at, entries, open) && Open(at, entries, pre)
    ensures
      var at' := if e.name in pre then at else at + [|entries|];
      Picks(at', entries + [e], open + if e.name in pre then [] else [e]) && Open(at', entries + [e], pre)
  {
    PicksLater(at, entries, open, e);
    assert open + [] == open;
  }

  lemma {:induction false} UnansweredNames(entries: seq<Entry>, pre: Values)
    ensures Names(Unanswered(entries, pre)) == Names(entries) - pre.Keys
    ensures forall i :: 0 <= i < |Unanswered(entries, pre)| ==> Unanswered(entries, pre)[i] in entries
  {
    if entries != [] {
      var n := |entries| - 1;
      var before := Unanswered(entries[..n], pre);
      UnansweredNames(entries[..n], pre);
      assert entries == entries[..n] + [entries[n]];
      NamesAppend(entries[..n], entries[n]);
      if entries[n].name in pre { assert before + [] == before; } else { NamesAppend(before, entries[n]); }
    }
  }

  lemma UnansweredNext(entries: seq<Entry>, e: Entry, pre: Values)
    ensures Unanswered(entries + [e], pre) == Unanswered(entries, pre) + if e.name in pre then [] else [e]
  {
    var all := entries + [e];
    assert all[..|all| - 1] == entries;
  }

  lemma OneMoreInOrder(entries: seq<Entry>, e: Entry, pre: Values, at: seq<nat>) returns (at': seq<nat>)
    requires Picks(at, entries, Unanswered(entries, pre)) && Open(at, entries, pre)
    ensures Picks(at', entries + [e], Unanswered(entries + [e], pre)) && Open(at', entries + [e], pre)
  {
    UnansweredNext(entries, e, pre);
    OpenNext(at, entries, Unanswered(entries, pre), e, pre);
    at' := if e.name in pre then at else at + [|entries|];
  }

  // They are the properties without an answer, in the order of the form.
  lemma {:induction false} UnansweredInOrder(entries: seq<Entry>, pre: Values) returns (at: seq<nat>)
    ensures Picks(at, entries, Unanswered(entries, pre)) && Open(at, entries, pre)
  {
    at := [];
    if entries != [] {
      var n := |entries| - 1;
      at := UnansweredInOrder(entries[..n], pre);
      at := OneMoreInOrder(entries[..n], entries[n], pre, at);
      assert entries == entries[..n] + [entries[n]];
    }
  }

  // Asking the pool for each declared property: the converted answers, none when
  // one does not convert, and what is used up by then.
  function Taking(entries: seq<Entry>, vals: map<string, string>, used: set<string>, pre: Values)
    : (Option<Values>, set<string>)
    decreases |entries|
  {
    if entries == [] then (Some(pre), used)
    else
      var e := entries[0];
      if e.name in used || e.name !in vals then Taking(entries[1..], vals, used, pre)
      else
        var v := e.coerce(vals[e.name]);
        if v == None then (None, used + {e.name})
        else Taking(entries[1..], vals, used + {e.name}, pre[e.name := v.value])
  }

  lemma NamesUnrolled(entries: seq<Entry>)
    requires entries != []
    ensures Names(entries) == {entries[0].name} + Names(entries[1..])
  {
    var rest := entries[1..];
    forall n ensures n in Names(entries) <==> n in {entries[0].name} + Names(rest) {
      if n in Names(rest) {
        var i :| 0 <= i < |rest| && rest[i].name == n;
        assert entries[i + 1].name == n;
      }
      if n in Names(entries) {
        var i :| 0 <= i < |entries| && entries[i].name == n;
        assert i > 0 ==> rest[i - 1].name == n;
      }
    }
  }

  lemma ConvertsLater(entries: seq<Entry>, name: string, raw: string, v: Json)
    requires entries != [] && Converts(entries[1..], name, raw, v)
    ensures Converts(entries, name, raw, v)
  {
    var i :| 0 <= i < |entries| - 1 && entries[1..][i].name == name && entries[1..][i].coerce(raw) == Some(v);
    assert entries[i + 1] == entries[1..][i];
  }

  // What a step takes is exactly what it declares, was given and was not used up,
  // each answer as one of the properties of that name converts it.
  lemma {:induction false} TakingIsSound(entries: seq<Entry>, vals: map<string, string>, used: set<string>, pre: Values)
    requires pre.Keys <= used
    ensures
      var (taken, used') := Taking(entries, vals, used, pre);
      && used <= used' <= used + Names(entries) * vals.Keys
      && (taken.Some? ==>
            && used' == used + Names(entries) * vals.Keys
            && taken.value.Keys == pre.Keys + (Names(entries) * vals.Keys - used)
            && (forall n :: n in pre ==> taken.value[n] == pre[n])
            && (forall n :: n in taken.value && n !in pre ==> Converts(entries, n, vals[n], taken.value[n])))
    decreases |entries|
  {
    if entries != [] {
      var e, rest := entries[0], entries[1..];
      NamesUnrolled(entries);
      if e.name in used || e.name !in vals {
        TakingIsSound(rest, vals, used, pre);
        TakenLater(entries, vals, pre, Taking(rest, vals, used, pre).0);
      } else if e.coerce(vals[e.name]) == None {
      } else {
        var next := pre[e.name := e.coerce(vals[e.name]).value];
        TakingIsSound(rest, vals, used + {e.name}, next);
        assert entries[0].name == e.name && Converts(entries, e.name, vals[e.name], next[e.name]);
        TakenLater(entries, vals, next, Taking(rest, vals, used + {e.name}, next).0);
      }
    }
  }

  lemma TakenLater(entries: seq<Entry>, vals: map<string, string>, pre: Values, taken: Option<Values>)
    requires entries != [] && (taken.Some? ==> forall n :: n in taken.value && n !in pre ==>
      n in vals && Converts(entries[1..], n, vals[n], taken.value[n]))
    ensures taken.Some? ==> forall n :: n in taken.value && n !in pre ==>
      Converts(entries, n, vals[n], taken.value[n])
  {
    if taken.Some? {
      forall n | n in taken.value && n !in pre ensures Converts(entries, n, vals[n], taken.value[n]) {
        ConvertsLater(entries, n, vals[n], taken.value[n]);
      }
    }
  }

  // Taking fails only on an answer that was given, not used up before, and does not
  // convert.
  lemma {:induction false} TakingFails(entries: seq<Entry>, vals: map<string, string>, used: set<string>, pre: Values)
    returns (i: nat)
    ensures Taking(entries, vals, used, pre).0 == None ==>
      && i < |entries| && entries[i].name in vals && entries[i].name !in used
      && entries[i].coerce(vals[entries[i].name]) == None
    decreases |entries|
  {
    i := 0;
    if entries != [] {
      var e, rest := entries[0], entries[1..];
      if e.name in used || e.name !in vals {
        i := TakingFails(rest, vals, used, pre);
        i := i + 1;
      } else if e.coerce(vals[e.name]).Some? {
        i := TakingFails(rest, vals, used + {e.name}, pre[e.name := e.coerce(vals[e.name]).value]);
        i := i + 1;
      }
    }
  }

  // Prompted answers folded over the taken ones complete the form.
  lemma RoundCompletes(form: Form, pre: Values, s: Stream)
    requires pre.Keys <= Names(form.entries)
    requires AskAll(Unanswered(form.entries, pre), form.required, s, map[]).0.Some?
    ensures Completed(form, pre, AskAll(Unanswered(form.entries, pre), form.required, s, map[]).0.value + pre)
  {
    var promptable := Unanswered(form.entries, pre);
    var values := AskAll(promptable, form.required, s, map[]).0.value;
    UnansweredNames(form.entries, pre);
    AnswersCover(promptable, form.required, s, map[]);
    forall n | n in values + pre && n !in pre ensures PossibleFor(form.entries, n, (values + pre)[n]) {
      var i :| 0 <= i < |promptable| && promptable[i].name == n && Possible(promptable[i], values[n]);
      assert promptable[i] in form.entries;
    }
  }

  // ---- Collecting the input of a step ---------------------------------------

  function SubmitAnswered(form: Form, answered: Values): Outcome {
    var json := form.marshal(answered);
    if json == None then Unmarshallable
    else if form.valid(json.value) then Submitted(json.value) else Rejected(json.value)
  }

  // The bare approval form: only a line that ends confirms.
  function Confirmed(form: Form, s: Stream): (Outcome, Stream) {
    if !form.valid("{}") then (Rejected("{}"), s)
    else
      var (_, status, rest) := ReadString(s);
      (match status case Eof => NoConsent case Broken => NoAnswer case Newline => Submitted("{}"), rest)
  }

  // One round of prompting: the input it comes to.
  function Round(form: Form, answered: Values, s: Stream): (Option<Option<string>>, Stream) {
    var (values, rest) := AskAll(Unanswered(form.entries, answered), form.required, s, map[]);
    (if values == None then None else Some(form.marshal(values.value + answered)), rest)
  }

  // What every round comes to once the input is used up.
  function Settled(form: Form, answered: Values, broken: bool): Option<string> {
    var r := Round(form, answered, Stream([], "", broken)).0;
    if r == None then None else r.value
  }

  // Rounds until the schema accepts. They always end: a rejected round that used
  // up no input comes to the same input again, and is then given up.
  function Rounds(form: Form, answered: Values, s: Stream, last: Option<string>): (Outcome, Stream)
    decreases Remaining(s), if last.Some? && last == Settled(form, answered, s.broken) then 0 else 1
  {
    RoundProgresses(Unanswered(form.entries, answered), form.required, s, map[]);
    var (r, rest) := Round(form, answered, s);
    if r == None then (NoAnswer, rest)
    else if r.value == None then (Unmarshallable, rest)
    else
      var json := r.value.value;
      if form.valid(json) then (Submitted(json), rest)
      else if last == Some(json) then (Rejected(json), rest)
      else Rounds(form, answered, rest, Some(json))
  }

  function Collected(form: Form, pre: Values, nonInteractive: bool, s: Stream): (Outcome, Stream) {
    var missing := form.required - pre.Keys;
    if missing == {} && (nonInteractive || (pre != map[] && |pre| == |form.entries|))
    then (SubmitAnswered(form, pre), s)
    else if nonInteractive then (Missing(missing), s)
    else if form.entries == [] then Confirmed(form, s)
    else Rounds(form, pre, s, None)
  }

  // ---- The same, told from the rounds themselves -------------------------------

  // One round of prompting for what is not answered: none when it ends without an
  // answer, else what marshalling its values under the answered ones gives.
  ghost predicate Gives(form: Form, answered: Values, s: Stream, json: Option<Option<string>>, rest: Stream) {
    exists result, asked, at ::
      && RoundDecided(Unanswered(form.entries, answered), form.required, s, map[], result, rest, asked, at)
      && json == if result == None then None else Some(form.marshal(result.value + answered))
  }

  lemma RoundGives(form: Form, answered: Values, s: Stream)
    ensures Gives(form, answered, s, Round(form, answered, s).0, Round(form, answered, s).1)
  {
    var promptable := Unanswered(form.entries, answered);
    var asked, at := RoundIsDecided(promptable, form.required, s, map[]);
    var (result, rest) := AskAll(promptable, form.required, s, map[]);
    assert RoundDecided(promptable, form.required, s, map[], result, rest, asked, at);
  }

  // What the last round makes of it.
  ghost predicate Concludes(form: Form, answered: Values, s: Stream, last: Option<string>, o: Outcome, rest: Stream) {
    exists json :: Gives(form, answered, s, json, rest) && (o.Rejected? ==> last == Some(o.json))
      && match json
         case None => o == NoAnswer
         case Some(None) => o == Unmarshallable
         case Some(Some(j)) => o == if form.valid(j) then Submitted(j) else Rejected(j)
  }

  // The rounds before the last one give the inputs jsons, none accepted, no two in a
  // row the same, each round starting where the one before ended.
  ghost predicate Tries(form: Form, answered: Values, s: Stream, last: Option<string>, jsons: seq<string>,
                        o: Outcome, rest: Stream)
    decreases |jsons|
  {
    if jsons == [] then Concludes(form, answered, s, last, o, rest)
    else
      && !form.valid(jsons[0]) && last != Some(jsons[0])
      && exists next :: Gives(form, answered, s, Some(Some(jsons[0])), next)
           && Tries(form, answered, next, Some(jsons[0]), jsons[1..], o, rest)
  }

  lemma {:induction false} RoundsAreTried(form: Form, answered: Values, s: Stream, last: Option<string>)
    returns (jsons: seq<string>)
    ensures Tries(form, answered, s, last, jsons, Rounds(form, answered, s, last).0, Rounds(form, answered, s, last).1)
    decreases Remaining(s), if last.Some? && last == Settled(form, answered, s.broken) then 0 else 1
  {
    RoundProgresses(Unanswered(form.entries, answered), form.required, s, map[]);
    RoundGives(form, answered, s);
    var (r, rest) := Round(form, answered, s);
    jsons := [];
    if r.Some? && r.value.Some? && !form.valid(r.value.value) && last != r.value {
      var later := RoundsAreTried(form, answered, rest, r.value);
      jsons := [r.value.value] + later;
      assert jsons[1..] == later;
    }
  }

  // Nothing is left to ask: every required property has an answer, and there is no
  // interaction or every property was pre-supplied.
  predicate Complete(form: Form, pre: Values, nonInteractive: bool) {
    form.required <= pre.Keys && (nonInteractive || (|pre| > 0 && |pre| == |form.entries|))
  }

  lemma NoneMissing(required: set<string>, given: set<string>)
    ensures required - given == {} <==> required <= given
  {
    if required - given == {} {
      forall n | n in required ensures n in given { assert n !in required - given; }
    }
  }

  // Every exit of a step that prompts for nothing: what is complete is submitted if
  // the schema accepts it, without interaction a gap is named, and the bare form takes
  // one line, which has to end.
  lemma UnpromptedExactly(form: Form, pre: Values, nonInteractive: bool, s: Stream)
    requires nonInteractive || form.entries == [] || Complete(form, pre, nonInteractive)
    ensures
      var (o, rest) := Collected(form, pre, nonInteractive, s);
      if Complete(form, pre, nonInteractive) then
        rest == s && match form.marshal(pre)
                     case None => o == Unmarshallable
                     case Some(j) => o == if form.valid(j) then Submitted(j) else Rejected(j)
      else if nonInteractive then (o, rest) == (Missing(form.required - pre.Keys), s)
      else if !form.valid("{}") then (o, rest) == (Rejected("{}"), s)
      else if s.lines != [] then (o, rest) == (Submitted("{}"), Stream(s.lines[1..], s.partial, s.broken))
      else o == (if s.broken then NoAnswer else NoConsent) && rest == Stream([], "", s.broken)
  {
    NoneMissing(form.required, pre.Keys);
    assert |pre| > 0 <==> pre != map[];
  }

  // In all other cases the properties without an answer are prompted for, in rounds.
  lemma PromptedExactly(form: Form, pre: Values, s: Stream) returns (jsons: seq<string>)
    requires form.entries != [] && !Complete(form, pre, false)
    ensures Tries(form, pre, s, None, jsons, Collected(form, pre, false, s).0, Collected(form, pre, false, s).1)
  {
    NoneMissing(form.required, pre.Keys);
    assert |pre| > 0 <==> pre != map[];
    jsons := RoundsAreTried(form, pre, s, None);
  }

  // A round that comes to input j, then another that does.
  ghost predicate TwiceInARow(form: Form, answered: Values, j: string) {
    exists s :: Round(form, answered, s).0 == Some(Some(j))
      && Round(form, answered, Round(form, answered, s).1).0 == Some(Some(j))
  }

  lemma {:induction false} RoundsAreSound(form: Form, answered: Values, s: Stream, last: Option<string>)
    requires answered.Keys <= Names(form.entries)
    requires last.Some? ==> exists s0 :: Round(form, answered, s0) == (Some(last), s)
    ensures
      var outcome := Rounds(form, answered, s, last).0;
      && (outcome.Submitted? ==> IsInput(form, answered, outcome.json))
      && (outcome.Rejected? ==> !form.valid(outcome.json) && TwiceInARow(form, answered, outcome.json))
      && (outcome.Submitted? || outcome.Rejected? || outcome.Unmarshallable? || outcome.NoAnswer?)
    decreases Remaining(s), if last.Some? && last == Settled(form, answered, s.broken) then 0 else 1
  {
    RoundProgresses(Unanswered(form.entries, answered), form.required, s, map[]);
    var (r, rest) := Round(form, answered, s);
    if r.Some? {
      RoundCompletes(form, answered, s);
      if r.value.Some? && !form.valid(r.value.value) && last != r.value {
        RoundsAreSound(form, answered, rest, r.value);
      }
    }
  }

  // Submitted input validates, keeps the taken answers and completes the form;
  // an interactive rejection came twice in a row; without interaction nothing is
  // read; and the end of the stream is never consent.
  lemma CollectedIsSound(form: Form, pre: Values, nonInteractive: bool, s: Stream)
    requires pre.Keys <= Names(form.entries)
    ensures
      var (outcome, rest) := Collected(form, pre, nonInteractive, s);
      && (outcome.Submitted? ==> IsInput(form, pre, outcome.json))
      && (outcome.Rejected? ==> !form.valid(outcome.json)) && !outcome.BadField?
      && (outcome.Missing? ==> nonInteractive && outcome.names == form.required - pre.Keys && outcome.names != {})
      && (nonInteractive ==> rest == s && !outcome.NoConsent? && !outcome.NoAnswer?)
      && (form.entries == [] && !nonInteractive && outcome.Submitted? ==> s.lines != [])
      && (outcome.NoConsent? ==> form.entries == [] && s.lines == [] && !s.broken)
  {
    var missing := form.required - pre.Keys;
    if missing == {} {
      assert form.required <= pre.Keys by {
        assert forall n :: n in form.required && n !in pre.Keys ==> n in missing;
      }
      assert Completed(form, pre, pre);
    }
    if form.entries == [] {
      assert pre == map[];
    } else {
      RoundsAreSound(form, pre, s, None);
    }
  }

  // The entry point, over the pool and the reader.
  method CollectStepInput(pool: PrefillPool, reader: Reader, form: Form, nonInteractive: bool)
    returns (outcome: Outcome)
    modifies pool`used, reader
    ensures pool.used == Taking(form.entries, pool.vals, old(pool.used), map[]).1
    ensures
      var pre := Taking(form.entries, pool.vals, old(pool.used), map[]).0;
      (outcome, reader.stream) ==
        if pre == None then (BadField, old(reader.stream))
        else Collected(form, pre.value, nonInteractive, old(reader.stream))
  {
    var pre: Values := map[];
    for i := 0 to |form.entries|
      invariant reader.stream == old(reader.stream)
      invariant Taking(form.entries[i..], pool.vals, pool.used, pre)
             == Taking(form.entries, pool.vals, old(pool.used), map[])
    {
      var e := form.entries[i];
      assert form.entries[i..][1..] == form.entries[i + 1..];
      ghost var before := pool.used;
      var raw := pool.Take(e.name);
      if raw == None {
        assert pool.used == before;
        continue;
      }
      var v := e.coerce(raw.value);
      if v == None { return BadField; }
      pre := pre[e.name := v.value];
    }
    assert form.entries[|form.entries|..] == [];

    var missing := form.required - pre.Keys;
    var fullyPrefilled := |pre| > 0 && |pre| == |form.entries|;
    if missing == {} && (nonInteractive || fullyPrefilled) {
      var json := form.marshal(pre);
      if json == None { return Unmarshallable; }
      if !form.valid(json.value) { return Rejected(json.value); }
      return Submitted(json.value);
    }
    if nonInteractive { return Missing(missing); }
    if form.entries == [] {
      outcome := Confirm(reader, form);
    } else {
      outcome := PromptUntilAccepted(reader, form, pre);
    }
  }

  method Confirm(reader: Reader, form: Form) returns (outcome: Outcome)
    modifies reader
    ensures (outcome, reader.stream) == Confirmed(form, old(reader.stream))
  {
    if !form.valid("{}") { return Rejected("{}"); }
    var _, status := reader.ReadLine();
    match status {
      case Eof => return NoConsent;
      case Broken => return NoAnswer;
      case Newline => return Submitted("{}");
    }
  }

  method PromptUntilAccepted(reader: Reader, form: Form, answered: Values) returns (outcome: Outcome)
    modifies reader
    ensures (outcome, reader.stream) == Rounds(form, answered, old(reader.stream), None)
  {
    var promptable := Unanswered(form.entries, answered);
    var last: Option<string> := None;
    while true
      invariant Rounds(form, answered, reader.stream, last) == Rounds(form, answered, old(reader.stream), None)
      decreases Remaining(reader.stream),
                if last.Some? && last == Settled(form, answered, reader.stream.broken) then 0 else 1
    {
      RoundProgresses(promptable, form.required, reader.stream, map[]);
      var values := reader.PromptResumeInput(promptable, form.required);
      if values == None { return NoAnswer; }
      var json := form.marshal(values.value + answered);
      if json == None { return Unmarshallable; }
      if form.valid(json.value) { return Submitted(json.value); }
      if last == json { return Rejected(json.value); }
      last := json;
    }
  }

  // ---- The walk over the steps ----------------------------------------------

  // A step the wizard reaches; before it, lines typed during the run are dropped.
  datatype Turn = Turn(form: Form, flushed: nat)

  function Flushed(s: Stream, n: nat): Stream {
    s.(lines := s.lines[if n <= |s.lines| then n else |s.lines|..])
  }

  lemma FlushedExactly(s: Stream, n: nat)
    ensures Flushed(s, n).partial == s.partial && Flushed(s, n).broken == s.broken
    ensures Flushed(s, n).lines == (if n < |s.lines| then s.lines[n..] else [])
  {
  }

  // How far a walk got: the inputs submitted, what each such step took from the
  // pool, the outcome that ended it if one did, and what is used up.
  datatype Walk = Walk(submitted: seq<string>, taken: seq<Values>, stopped: Option<Outcome>, used: set<string>)

  function Walked(turns: seq<Turn>, vals: map<string, string>, used: set<string>, s: Stream, nonInteractive: bool): Walk
    decreases |turns|
  {
    if turns == [] then Walk([], [], None, used)
    else
      var (pre, used') := Taking(turns[0].form.entries, vals, used, map[]);
      if pre == None then Walk([], [], Some(BadField), used')
      else
        var (outcome, rest) := Collected(turns[0].form, pre.value, nonInteractive, Flushed(s, turns[0].flushed));
        if !outcome.Submitted? then Walk([], [], Some(outcome), used')
        else
          Prefixed(Walked(turns[1..], vals, used', rest, nonInteractive), [outcome.json], [pre.value])
  }

  function AllTaken(taken: seq<Values>): set<string> {
    if taken == [] then {} else taken[0].Keys + AllTaken(taken[1..])
  }

  // Each submitted step took only what no step before it had, and submitted sound
  // input; what was used is what was taken, up to the step that ended the walk.
  ghost predicate IsSoundWalk(turns: seq<Turn>, vals: map<string, string>, used: set<string>, w: Walk) {
    && |w.taken| == |w.submitted| <= |turns|
    && (w.stopped == None <==> |w.submitted| == |turns|)
    && (forall k :: 0 <= k < |w.taken| ==> StepIsSound(turns, vals, used, w, k))
    && used + AllTaken(w.taken) <= w.used
    && (w.stopped == None ==> w.used == used + AllTaken(w.taken))
    && (w.stopped.Some? ==>
          && w.used <= used + AllTaken(w.taken) + Names(turns[|w.taken|].form.entries) * vals.Keys
          && StopIsSound(turns[|w.taken|].form, vals, used + AllTaken(w.taken), w.stopped.value))
  }

  // What a walk ends with, of the step it ends at.
  ghost predicate StopIsSound(form: Form, vals: map<string, string>, used: set<string>, o: Outcome) {
    match o
    case Submitted(_) => false
    case BadField =>
      exists i :: 0 <= i < |form.entries| && form.entries[i].name in vals && form.entries[i].name !in used
        && form.entries[i].coerce(vals[form.entries[i].name]) == None
    case Missing(names) =>
      names != {} && forall n :: n in names <==>
        n in form.required && !(n in Names(form.entries) && n in vals && n !in used)
    case Rejected(json) => !form.valid(json)
    case NoConsent => form.entries == []
    case _ => true
  }

  ghost predicate StepIsSound(turns: seq<Turn>, vals: map<string, string>, used: set<string>, w: Walk, k: nat)
    requires k < |w.taken| == |w.submitted| <= |turns|
  {
    && TakenFor(turns[k].form.entries, vals, used + AllTaken(w.taken[..k]), w.taken[k])
    && IsInput(turns[k].form, w.taken[k], w.submitted[k])
  }

  function Prefixed(w: Walk, submitted: seq<string>, taken: seq<Values>): Walk {
    w.(submitted := submitted + w.submitted, taken := taken + w.taken)
  }

  lemma PrefixedTwice(w: Walk, submitted: seq<string>, taken: seq<Values>, json: string, pre: Values)
    ensures Prefixed(Prefixed(w, [json], [pre]), submitted, taken) == Prefixed(w, submitted + [json], taken + [pre])
  {
    assert submitted + ([json] + w.submitted) == submitted + [json] + w.submitted;
    assert taken + ([pre] + w.taken) == taken + [pre] + w.taken;
  }

  lemma {:induction false} WalkedIsSound(
    turns: seq<Turn>, vals: map<string, string>, used: set<string>, s: Stream, nonInteractive: bool)
    ensures IsSoundWalk(turns, vals, used, Walked(turns, vals, used, s, nonInteractive))
    decreases |turns|
  {
    if turns == [] {
      assert used + AllTaken([]) == used;
    } else {
      var form, s0 := turns[0].form, Flushed(s, turns[0].flushed);
      var (pre, used') := Taking(form.entries, vals, used, map[]);
      TakingIsTakenFor(form.entries, vals, used);
      if pre == None {
        var i := TakingFails(form.entries, vals, used, map[]);
        WalkStops(turns, vals, used, used', BadField);
      } else {
        var (outcome, rest) := Collected(form, pre.value, nonInteractive, s0);
        SubmittedIsInput(form, pre.value, nonInteractive, s0);
        StoppedIsSound(form, vals, used, pre.value, nonInteractive, s0);
        if outcome.Submitted? {
          var w := Walked(turns[1..], vals, used', rest, nonInteractive);
          WalkedIsSound(turns[1..], vals, used', rest, nonInteractive);
          WalkExtends(turns, vals, used, pre.value, outcome.json, w);
          assert Walked(turns, vals, used, s, nonInteractive) == Prefixed(w, [outcome.json], [pre.value]);
        } else {
          WalkStops(turns, vals, used, used', outcome);
        }
      }
    }
  }

  lemma TakingIsTakenFor(entries: seq<Entry>, vals: map<string, string>, used: set<string>)
    ensures
      var (taken, used') := Taking(entries, vals, used, map[]);
      && used <= used' <= used + Names(entries) * vals.Keys
      && (taken.Some? ==> TakenFor(entries, vals, used, taken.value) && used' == used + taken.value.Keys)
  {
    TakingIsSound(entries, vals, used, map[]);
  }

  lemma SubmittedIsInput(form: Form, pre: Values, nonInteractive: bool, s: Stream)
    requires pre.Keys <= Names(form.entries)
    ensures var o := Collected(form, pre, nonInteractive, s).0; o.Submitted? ==> IsInput(form, pre, o.json)
  {
    CollectedIsSound(form, pre, nonInteractive, s);
  }

  lemma StoppedIsSound(form: Form, vals: map<string, string>, used: set<string>, pre: Values, nonInteractive: bool,
                       s: Stream)
    requires TakenFor(form.entries, vals, used, pre)
    ensures
      var o := Collected(form, pre, nonInteractive, s).0;
      o.Submitted? || StopIsSound(form, vals, used, o)
  {
    CollectedIsSound(form, pre, nonInteractive, s);
    var o := Collected(form, pre, nonInteractive, s).0;
    if o.Missing? { GapsAreSound(form, vals, used, pre, o.names); }
  }

  lemma GapsAreSound(form: Form, vals: map<string, string>, used: set<string>, pre: Values, names: set<string>)
    requires TakenFor(form.entries, vals, used, pre) && names == form.required - pre.Keys && names != {}
    ensures StopIsSound(form, vals, used, Missing(names))
  {
  }

  lemma WalkStops(turns: seq<Turn>, vals: map<string, string>, used: set<string>, used': set<string>, o: Outcome)
    requires turns != [] && used <= used' <= used + Names(turns[0].form.entries) * vals.Keys
    requires StopIsSound(turns[0].form, vals, used, o)
    ensures IsSoundWalk(turns, vals, used, Walk([], [], Some(o), used'))
  {
    assert used + AllTaken([]) == used;
  }

  lemma WalkExtends(turns: seq<Turn>, vals: map<string, string>, used: set<string>, pre: Values, json: string, w: Walk)
    requires turns != [] && TakenFor(turns[0].form.entries, vals, used, pre) && IsInput(turns[0].form, pre, json)
    requires IsSoundWalk(turns[1..], vals, used + pre.Keys, w)
    ensures IsSoundWalk(turns, vals, used, Prefixed(w, [json], [pre]))
  {
    var longer := Prefixed(w, [json], [pre]);
    assert longer.taken[1..] == w.taken;
    assert used + AllTaken(longer.taken) == used + pre.Keys + AllTaken(w.taken);
    forall k | 0 <= k < |longer.taken| ensures StepIsSound(turns, vals, used, longer, k) {
      if k == 0 {
        assert used + AllTaken(longer.taken[..0]) == used;
      } else {
        assert StepIsSound(turns[1..], vals, used + pre.Keys, w, k - 1);
        assert longer.taken[..k][1..] == w.taken[..k - 1];
        assert used + AllTaken(longer.taken[..k]) == used + pre.Keys + AllTaken(w.taken[..k - 1]);
      }
    }
  }

  // Where the stream stands before each step of a walk. A step sees it without the
  // lines typed while it was getting there, and leaves it to the next one; the walk
  // ends with the first step that submits nothing, and with what that step came to.
  ghost predicate StepByStep(turns: seq<Turn>, vals: map<string, string>, used: set<string>, s: Stream,
                             nonInteractive: bool, w: Walk)
    decreases |turns|
  {
    if turns == [] then w == Walk([], [], None, used)
    else
      var form, n := turns[0].form, turns[0].flushed;
      var seen := Stream(if n < |s.lines| then s.lines[n..] else [], s.partial, s.broken);
      var (pre, used') := Taking(form.entries, vals, used, map[]);
      if pre == None then w == Walk([], [], Some(BadField), used')
      else
        var (o, rest) := Collected(form, pre.value, nonInteractive, seen);
        if o.Submitted? then
          && w.submitted != [] && w.submitted[0] == o.json && w.taken != [] && w.taken[0] == pre.value
          && StepByStep(turns[1..], vals, used', rest, nonInteractive,
                        w.(submitted := w.submitted[1..], taken := w.taken[1..]))
        else w == Walk([], [], Some(o), used')
  }

  lemma {:induction false} WalkedStepByStep(
    turns: seq<Turn>, vals: map<string, string>, used: set<string>, s: Stream, nonInteractive: bool)
    ensures StepByStep(turns, vals, used, s, nonInteractive, Walked(turns, vals, used, s, nonInteractive))
    decreases |turns|
  {
    if turns != [] {
      var form := turns[0].form;
      FlushedExactly(s, turns[0].flushed);
      var seen := Flushed(s, turns[0].flushed);
      var (pre, used') := Taking(form.entries, vals, used, map[]);
      if pre.Some? {
        var (o, rest) := Collected(form, pre.value, nonInteractive, seen);
        if o.Submitted? {
          var w := Walked(turns[1..], vals, used', rest, nonInteractive);
          WalkedStepByStep(turns[1..], vals, used', rest, nonInteractive);
          var longer := Prefixed(w, [o.json], [pre.value]);
          assert longer.submitted[1..] == w.submitted && longer.taken[1..] == w.taken;
        }
      }
    }
  }

  // Follows the run from step to step while input is submitted, then reports the
  // answers no step took.
  method Follow(pool: PrefillPool, reader: Reader, turns: seq<Turn>, nonInteractive: bool)
    returns (submitted: seq<string>, stopped: Option<Outcome>, unused: set<string>)
    requires pool.used == {}
    modifies pool`used, reader
    ensures
      var w := Walked(turns, pool.vals, {}, old(reader.stream), nonInteractive);
      && submitted == w.submitted && stopped == w.stopped && pool.used == w.used
      && (stopped == None ==> unused == pool.vals.Keys - AllTaken(w.taken))
  {
    submitted, stopped, unused := [], None, {};
    ghost var taken: seq<Values> := [];
    ghost var whole := Walked(turns, pool.vals, {}, reader.stream, nonInteractive);
    for i := 0 to |turns|
      invariant
        whole == Prefixed(Walked(turns[i..], pool.vals, pool.used, reader.stream, nonInteractive), submitted, taken)
    {
      assert turns[i..][1..] == turns[i + 1..];
      var n := turns[i].flushed;
      reader.stream := Flushed(reader.stream, n);
      ghost var pre := Taking(turns[i].form.entries, pool.vals, pool.used, map[]).0;
      var outcome := CollectStepInput(pool, reader, turns[i].form, nonInteractive);
      if !outcome.Submitted? {
        assert submitted + [] == submitted;
        return submitted, Some(outcome), pool.Unused();
      }
      PrefixedTwice(Walked(turns[i + 1..], pool.vals, pool.used, reader.stream, nonInteractive),
                    submitted, taken, outcome.json, pre.value);
      submitted, taken := submitted + [outcome.json], taken + [pre.value];
    }
    assert turns[|turns|..] == [];
    WalkedIsSound(turns, pool.vals, {}, old(reader.stream), nonInteractive);
    unused := pool.Unused();
  }

  // No pre-supplied answer reaches two steps.
  lemma TakenAtMostOnce(
    entries: seq<seq<Entry>>, vals: map<string, string>, taken: seq<Values>, j: nat, k: nat)
    requires |entries| == |taken| && j < k < |taken|
    requires forall i :: 0 <= i < |taken| ==> TakenFor(entries[i], vals, AllTaken(taken[..i]), taken[i])
    ensures taken[j].Keys !! taken[k].Keys
  {
    TakenIsTaken(taken[..k], j);
    assert taken[..k][j] == taken[j];
  }

  lemma {:induction false} TakenIsTaken(taken: seq<Values>, j: nat)
    requires j < |taken|
    ensures taken[j].Keys <= AllTaken(taken)
  {
    if j > 0 {
      TakenIsTaken(taken[1..], j - 1);
      assert taken[1..][j - 1] == taken[j];
    }
  }
}
