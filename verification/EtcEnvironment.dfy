/** Merging variables into the text of /etc/environment
    (internal/bastion/init.go, buildProposedEnvironment). */
module EtcEnvironment {
  import opened Prelude

  // ----- Lines -----

  /** strings.Split at newlines. */
  function Split(s: string): (r: seq<string>)
    ensures r != []
  {
    if s == "" then [""]
    else
      var rest := Split(s[1..]);
      if s[0] == '\n' then [""] + rest else [[s[0]] + rest[0]] + rest[1..]
  }

  /** strings.Join with newlines. */
  function Join(lines: seq<string>): string {
    if lines == [] then "" else if |lines| == 1 then lines[0] else lines[0] + "\n" + Join(lines[1..])
  }

  function NonBlank(lines: seq<string>): seq<string> {
    if lines == [] then [] else (if lines[0] == "" then [] else [lines[0]]) + NonBlank(lines[1..])
  }

  function IndexByte(s: string, c: char): (r: int)
    ensures r == -1 <==> c !in s
    ensures r != -1 ==> 0 <= r < |s| && s[r] == c && c !in s[..r]
  {
    if s == "" then -1
    else if s[0] == c then 0
    else
      var r := IndexByte(s[1..], c);
      assert r != -1 ==> s[..r + 1] == [s[0]] + s[1..][..r];
      if r == -1 then -1 else r + 1
  }

  /** What stands before the first '=', when that is not the first character. */
  function KeyOf(line: string): Option<string> {
    var i := IndexByte(line, '=');
    if i <= 0 then None else Some(line[..i])
  }

  predicate HasKeyIn(line: string, keys: set<string>) {
    KeyOf(line).Some? && KeyOf(line).value in keys
  }

  /** The lines that are not blank and set none of the keys, in order. */
  function Others(lines: seq<string>, keys: set<string>): seq<string> {
    if lines == [] then []
    else (if lines[0] == "" || HasKeyIn(lines[0], keys) then [] else [lines[0]]) + Others(lines[1..], keys)
  }

  /** The lines that set a key. */
  function OfKey(lines: seq<string>, key: string): seq<string> {
    if lines == [] then []
    else (if KeyOf(lines[0]) == Some(key) then [lines[0]] else []) + OfKey(lines[1..], key)
  }

  function Line(key: string, value: string): string { key + "=" + value }

  function NewLines(desired: map<string, string>, order: seq<string>): (r: seq<string>)
    requires forall k | k in order :: k in desired
    ensures |r| == |order| && forall i :: 0 <= i < |r| ==> r[i] == Line(order[i], desired[order[i]])
  {
    seq(|order|, i requires 0 <= i < |order| => Line(order[i], desired[order[i]]))
  }

  predicate Distinct(order: seq<string>) {
    forall i, j :: 0 <= i < j < |order| ==> order[i] != order[j]
  }

  /** Some order in which Go may range over a map's keys. */
  predicate Enumerates(order: seq<string>, desired: map<string, string>) {
    && Distinct(order)
    && (forall k | k in order :: k in desired) && (forall k | k in desired :: k in order)
  }

  function Merged(current: string, desired: map<string, string>, order: seq<string>): seq<string>
    requires Enumerates(order, desired)
  {
    Others(Split(current), desired.Keys) + NewLines(desired, order)
  }

  function Text(lines: seq<string>): string { Join(lines) + "\n" }

  function Proposed(current: string, desired: map<string, string>, order: seq<string>): string
    requires Enumerates(order, desired)
  {
    Text(Merged(current, desired, order))
  }

  // ----- The merge itself -----

  lemma {:induction false} OthersMore(lines: seq<string>, line: string, keys: set<string>)
    ensures Others(lines + [line], keys) ==
            Others(lines, keys) + if line == "" || HasKeyIn(line, keys) then [] else [line]
  {
    if lines == [] {
      assert [line][1..] == [];
    } else {
      assert (lines + [line])[1..] == lines[1..] + [line];
      OthersMore(lines[1..], line, keys);
    }
  }

  method KeepOthers(lines: seq<string>, remove: set<string>) returns (kept: seq<string>)
    ensures kept == Others(lines, remove)
  {
    kept := [];
    var i := 0;
    while i < |lines|
      invariant i <= |lines| && kept == Others(lines[..i], remove)
    {
      var line := lines[i];
      assert lines[..i + 1] == lines[..i] + [line];
      OthersMore(lines[..i], line, remove);
      i := i + 1;
      if line != "" {
        var equalIndex := IndexByte(line, '=');
        if equalIndex <= 0 {
          kept := kept + [line];
        } else if line[..equalIndex] !in remove {
          kept := kept + [line];
        }
      }
    }
    assert lines[..i] == lines;
  }

  method KeysOf(order: seq<string>) returns (remove: set<string>)
    ensures forall k :: k in remove <==> k in order
  {
    remove := {};
    var i := 0;
    while i < |order|
      invariant i <= |order| && forall k :: k in remove <==> k in order[..i]
    {
      remove := remove + {order[i]};
      i := i + 1;
    }
  }

  method AppendDesired(others: seq<string>, desired: map<string, string>, order: seq<string>) returns (kept: seq<string>)
    requires forall k | k in order :: k in desired
    ensures kept == others + NewLines(desired, order)
  {
    kept := others;
    var i := 0;
    while i < |order|
      invariant i <= |order| && kept == others + NewLines(desired, order)[..i]
    {
      kept := kept + [order[i] + "=" + desired[order[i]]];
      i := i + 1;
    }
  }

  method BuildProposedEnvironment(current: string, desired: map<string, string>, order: seq<string>)
    returns (proposed: string)
    requires Enumerates(order, desired)
    ensures proposed == Proposed(current, desired, order)
    ensures AllWritable(desired) ==>
              && Others(Split(proposed), desired.Keys) == Others(Split(current), desired.Keys)
              && forall key | key in desired :: OfKey(Split(proposed), key) == [Line(key, desired[key])]
  {
    var remove := KeysOf(order);
    assert remove == desired.Keys;
    var lines: seq<string> := if current != "" then Split(current) else [];
    var others := KeepOthers(lines, remove);
    BlankTextHasNoLines(remove);
    assert others == Others(Split(current), desired.Keys);
    var kept := AppendDesired(others, desired, order);
    proposed := Join(kept) + "\n";
    if AllWritable(desired) {
      OtherLinesStay(current, desired, order);
      forall key | key in desired ensures OfKey(Split(proposed), key) == [Line(key, desired[key])] {
        EachKeyIsSetOnce(current, desired, order, key);
      }
    }
  }

  lemma BlankTextHasNoLines(keys: set<string>)
    ensures Others(Split(""), keys) == Others([], keys)
  {
    assert [""][1..] == [];
  }

  // ----- Reading the result back -----

  /** A variable that fits a line: what the merge asks of its caller. */
  predicate Writable(key: string, value: string) {
    key != "" && '=' !in key && '\n' !in key && '\n' !in value
  }

  lemma {:induction false} SplitLine(line: string, rest: string)
    requires '\n' !in line
    ensures Split(line + "\n" + rest) == [line] + Split(rest)
  {
    var s := line + "\n" + rest;
    if line == "" {
      assert s == "\n" + rest && s[1..] == rest;
    } else {
      assert s[1..] == line[1..] + "\n" + rest;
      SplitLine(line[1..], rest);
      assert [line[0]] + line[1..] == line;
    }
  }

  lemma {:induction false} SplitHasNoNewline(s: string)
    ensures forall line | line in Split(s) :: '\n' !in line
  {
    if s != "" {
      SplitHasNoNewline(s[1..]);
      var rest := Split(s[1..]);
      assert rest[0] in rest;
    }
  }

  predicate OneLiners(lines: seq<string>) {
    forall i :: 0 <= i < |lines| ==> lines[i] != "" && '\n' !in lines[i]
  }

  lemma {:induction false} TextReadsBack(lines: seq<string>)
    requires OneLiners(lines)
    ensures NonBlank(Split(Text(lines))) == lines
  {
    if lines == [] {
      SplitLine("", "");
      assert Text([]) == "" + "\n" + "";
      assert Split(Text([])) == ["", ""] && ["", ""][1..] == [""] && [""][1..] == [];
    } else if |lines| == 1 {
      SplitLine(lines[0], "");
      assert Text(lines) == lines[0] + "\n" + "";
      assert Split(Text(lines)) == [lines[0], ""];
      assert [lines[0], ""][1..] == [""] && [""][1..] == [];
      assert lines == [lines[0]];
    } else {
      var rest := Text(lines[1..]);
      TextReadsBack(lines[1..]);
      SplitLine(lines[0], rest);
      assert Text(lines) == lines[0] + "\n" + rest;
      assert ([lines[0]] + Split(rest))[1..] == Split(rest);
      assert lines == [lines[0]] + lines[1..];
    }
  }

  lemma {:induction false} OthersAreOneLiners(lines: seq<string>, keys: set<string>)
    requires forall line | line in lines :: '\n' !in line
    ensures OneLiners(Others(lines, keys))
  {
    if lines != [] {
      assert lines[0] in lines;
      OthersAreOneLiners(lines[1..], keys);
    }
  }

  lemma {:induction false} IndexIs(s: string, c: char, i: nat)
    requires i < |s| && s[i] == c && c !in s[..i]
    ensures IndexByte(s, c) == i
    decreases |s|
  {
    if i > 0 {
      assert s[..i][0] == s[0] && s[1..][..i - 1] == s[..i][1..];
      IndexIs(s[1..], c, i - 1);
    }
  }

  lemma KeyOfLine(key: string, value: string)
    requires key != "" && '=' !in key
    ensures KeyOf(Line(key, value)) == Some(key)
  {
    var line := Line(key, value);
    assert line[|key|] == '=' && line[..|key|] == key;
    IndexIs(line, '=', |key|);
  }

  predicate AllWritable(desired: map<string, string>) {
    forall k | k in desired :: Writable(k, desired[k])
  }

  /** The non-blank lines of the proposed text are the lines that were merged. */
  lemma ProposedLines(current: string, desired: map<string, string>, order: seq<string>)
    requires Enumerates(order, desired) && AllWritable(desired)
    ensures NonBlank(Split(Proposed(current, desired, order))) == Merged(current, desired, order)
  {
    SplitHasNoNewline(current);
    OthersAreOneLiners(Split(current), desired.Keys);
    TextReadsBack(Merged(current, desired, order));
  }

  // ----- What stays and what is set -----

  lemma {:induction false} OthersJoined(a: seq<string>, b: seq<string>, keys: set<string>)
    ensures Others(a + b, keys) == Others(a, keys) + Others(b, keys)
  {
    if a == [] {
      assert a + b == b;
    } else {
      assert (a + b)[1..] == a[1..] + b;
      OthersJoined(a[1..], b, keys);
    }
  }

  lemma {:induction false} OthersTwice(lines: seq<string>, keys: set<string>)
    ensures Others(Others(lines, keys), keys) == Others(lines, keys)
  {
    if lines != [] {
      OthersTwice(lines[1..], keys);
      var head := if lines[0] == "" || HasKeyIn(lines[0], keys) then [] else [lines[0]];
      OthersJoined(head, Others(lines[1..], keys), keys);
      if head != [] { assert head[1..] == []; }
    }
  }

  lemma {:induction false} OthersOfNew(desired: map<string, string>, order: seq<string>, keys: set<string>)
    requires AllWritable(desired) && (forall k | k in order :: k in desired && k in keys)
    ensures Others(NewLines(desired, order), keys) == []
  {
    if order != [] {
      KeyOfLine(order[0], desired[order[0]]);
      OthersOfNew(desired, order[1..], keys);
      assert NewLines(desired, order)[1..] == NewLines(desired, order[1..]);
    }
  }

  lemma {:induction false} OthersIgnoreBlanks(lines: seq<string>, keys: set<string>)
    ensures Others(NonBlank(lines), keys) == Others(lines, keys)
  {
    if lines != [] {
      OthersIgnoreBlanks(lines[1..], keys);
      var head := if lines[0] == "" then [] else [lines[0]];
      OthersJoined(head, NonBlank(lines[1..]), keys);
      if head != [] { assert head[1..] == []; }
    }
  }

  /** Whatever order the map is ranged over in, all lines that are not blank and set
      no desired key stay, in order, and no other such line appears. */
  lemma OtherLinesStay(current: string, desired: map<string, string>, order: seq<string>)
    requires Enumerates(order, desired) && AllWritable(desired)
    ensures Others(Split(Proposed(current, desired, order)), desired.Keys) == Others(Split(current), desired.Keys)
  {
    var kept, added := Others(Split(current), desired.Keys), NewLines(desired, order);
    ProposedLines(current, desired, order);
    OthersIgnoreBlanks(Split(Proposed(current, desired, order)), desired.Keys);
    OthersJoined(kept, added, desired.Keys);
    OthersTwice(Split(current), desired.Keys);
    OthersOfNew(desired, order, desired.Keys);
  }

  lemma OfKeyFirst(first: string, rest: seq<string>, key: string)
    ensures OfKey([first] + rest, key) == (if KeyOf(first) == Some(key) then [first] else []) + OfKey(rest, key)
  {
    assert ([first] + rest)[1..] == rest;
  }

  lemma {:induction false} OfKeyJoined(a: seq<string>, b: seq<string>, key: string)
    ensures OfKey(a + b, key) == OfKey(a, key) + OfKey(b, key)
  {
    if a == [] {
      assert a + b == b;
    } else {
      assert (a + b)[1..] == a[1..] + b;
      OfKeyJoined(a[1..], b, key);
      OfKeyFirst(a[0], a[1..] + b, key);
      assert [a[0]] + (a[1..] + b) == a + b;
    }
  }

  lemma {:induction false} OfKeyIgnoresBlanks(lines: seq<string>, key: string)
    ensures OfKey(NonBlank(lines), key) == OfKey(lines, key)
  {
    if lines != [] {
      OfKeyIgnoresBlanks(lines[1..], key);
      var head := if lines[0] == "" then [] else [lines[0]];
      OfKeyJoined(head, NonBlank(lines[1..]), key);
      if head != [] { assert head[1..] == []; }
    }
  }

  lemma {:induction false} OthersHaveNoKey(lines: seq<string>, keys: set<string>, key: string)
    requires key in keys
    ensures OfKey(Others(lines, keys), key) == []
  {
    if lines != [] {
      OthersHaveNoKey(lines[1..], keys, key);
      var head := if lines[0] == "" || HasKeyIn(lines[0], keys) then [] else [lines[0]];
      OfKeyJoined(head, Others(lines[1..], keys), key);
      if head != [] { assert head[1..] == []; }
    }
  }

  lemma DistinctTail(order: seq<string>, key: string)
    requires order != [] && Distinct(order)
    ensures Distinct(order[1..]) && order[0] !in order[1..]
    ensures key in order <==> key == order[0] || key in order[1..]
  {
  }

  lemma NewLinesFirst(desired: map<string, string>, order: seq<string>)
    requires order != [] && forall k | k in order :: k in desired
    ensures NewLines(desired, order) == [Line(order[0], desired[order[0]])] + NewLines(desired, order[1..])
  {
  }

  lemma {:induction false} NewLinesOfKey(desired: map<string, string>, order: seq<string>, key: string)
    requires AllWritable(desired) && (forall k | k in order :: k in desired) && Distinct(order)
    ensures OfKey(NewLines(desired, order), key) == if key in order then [Line(key, desired[key])] else []
    decreases |order|
  {
    if order != [] {
      NewLinesFirst(desired, order);
      KeyOfLine(order[0], desired[order[0]]);
      OfKeyFirst(Line(order[0], desired[order[0]]), NewLines(desired, order[1..]), key);
      DistinctTail(order, key);
      NewLinesOfKey(desired, order[1..], key);
    }
  }

  /** And every desired key is set by exactly one line, to its desired value. */
  lemma EachKeyIsSetOnce(current: string, desired: map<string, string>, order: seq<string>, key: string)
    requires Enumerates(order, desired) && AllWritable(desired) && key in desired
    ensures OfKey(Split(Proposed(current, desired, order)), key) == [Line(key, desired[key])]
  {
    var kept, added := Others(Split(current), desired.Keys), NewLines(desired, order);
    ProposedLines(current, desired, order);
    OfKeyIgnoresBlanks(Split(Proposed(current, desired, order)), key);
    OfKeyJoined(kept, added, key);
    OthersHaveNoKey(Split(current), desired.Keys, key);
    NewLinesOfKey(desired, order, key);
  }

  /** Merging again, in whatever order, is merging once in that order. */
  lemma MergingTwiceIsMergingOnce(current: string, desired: map<string, string>, first: seq<string>, second: seq<string>)
    requires Enumerates(first, desired) && Enumerates(second, desired) && AllWritable(desired)
    ensures Proposed(Proposed(current, desired, first), desired, second) == Proposed(current, desired, second)
  {
    OtherLinesStay(current, desired, first);
  }

  // ----- Where it fails -----

  /** A variable alone in the file reads back as itself exactly when it is writable. */
  lemma ReadsBackExactlyWhenWritable(key: string, value: string)
    ensures NonBlank(Split(Proposed("", map[key := value], [key]))) == [Line(key, value)] && KeyOf(Line(key, value)) == Some(key)
       <==> Writable(key, value)
  {
    var desired := map[key := value];
    if Writable(key, value) {
      ProposedLines("", desired, [key]);
      BlankTextHasNoLines(desired.Keys);
      assert NewLines(desired, [key]) == [Line(key, value)];
      KeyOfLine(key, value);
    } else if key == "" {
      IndexIs(Line(key, value), '=', 0);
    } else if '=' in key {
      var j := IndexByte(key, '=');
      assert Line(key, value)[..j] == key[..j];
      IndexIs(Line(key, value), '=', j);
    } else {
      var lines := NonBlank(Split(Proposed("", desired, [key])));
      SplitHasNoNewline(Proposed("", desired, [key]));
      NonBlankIsPart(Split(Proposed("", desired, [key])));
      assert '\n' in Line(key, value) && Line(key, value) !in lines;
    }
  }

  lemma {:induction false} NonBlankIsPart(lines: seq<string>)
    ensures forall line | line in NonBlank(lines) :: line in lines
  {
    if lines != [] { NonBlankIsPart(lines[1..]); }
  }

  /** A variable with an empty name is never recognised again: every merge adds one
      more line for it. */
  lemma EmptyKeyAccumulates(current: string, value: string)
    requires '\n' !in value
    ensures var desired := map["" := value];
            NonBlank(Split(Proposed(current, desired, [""]))) == NonBlank(Split(current)) + ["=" + value]
  {
    var desired := map["" := value];
    NothingHasTheEmptyKey(Split(current));
    SplitHasNoNewline(current);
    OthersAreOneLiners(Split(current), desired.Keys);
    assert desired.Keys == {""};
    assert Line("", value) == "=" + value;
    assert NewLines(desired, [""]) == ["=" + value];
    TextReadsBack(Merged(current, desired, [""]));
  }

  lemma {:induction false} NothingHasTheEmptyKey(lines: seq<string>)
    ensures Others(lines, {""}) == NonBlank(lines)
  {
    if lines != [] { NothingHasTheEmptyKey(lines[1..]); }
  }
}
