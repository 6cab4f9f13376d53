/** The LaTeX math parser: mutually recursive methods over a position, nested parsers over parts of the source, and a
    table of layout nodes shared by all of them. Rendered text is a sequence of glyphs and markers, where a marker
    stands for a node of the table. */
module Latex {

  import opened Wrappers

  datatype Token = Glyph(c: char) | Marker(index: nat)

  type Text = seq<Token>

  datatype LayoutNode =
    | Fraction(numerator: Text, denominator: Text)
    | Operator(operator: Text, lower: Option<Text>, upper: Option<Text>)
    | Matrix(lines: seq<Text>)

  function Plain(s: string): (t: Text)
    ensures |t| == |s| && NoMarkers(t)
  {
    seq(|s|, i requires 0 <= i < |s| => Glyph(s[i]))
  }

  predicate NoMarkers(t: Text) { forall i :: 0 <= i < |t| ==> t[i].Glyph? }

  /** Every marker of the text names one of the first `n` nodes. */
  predicate Below(t: Text, n: nat) { forall i :: 0 <= i < |t| && t[i].Marker? ==> t[i].index < n }

  /** What a command does, as the tables of commands and symbols say. */
  datatype Kind =
    | Constant(text: string)
    | NegativeSpace
    | Not
    | LimitOperator(text: string, spaced: bool)
    | Delimiter
    | Frac(inline: bool)
    | Root
    | Wrapper(arguments: nat, name: string)
    | OperatorName
    | Begin
    | Unsupported

  datatype Environment = Equation | Aligned(at: bool) | Cases | Grid(bare: bool, spec: bool) | Unknown

  /** The tables of commands and environments, and the formatting of text. */
  datatype Tables = Tables(kind: string -> Kind, environment: string -> Environment, style: (string, Text) -> Text)

  /** Formatting rearranges and adds characters but makes up no marker. */
  ghost predicate AddsNoMarkers(t: Tables) {
    forall name, v, n {:trigger Below(t.style(name, v), n)} {:trigger t.style(name, v), Below(v, n)} :: Below(v, n) ==> Below(t.style(name, v), n)
  }

  // ---------------------------------------------------------------------------------------------
  // Scanning
  // ---------------------------------------------------------------------------------------------

  predicate Letter(c: char) { 'a' <= c <= 'z' || 'A' <= c <= 'Z' }

  /** A character that stands for itself. */
  predicate Simple(c: char) { !Space(c) && c !in {'\\', '{', '}', '^', '_', '=', '<', '>', '~', '&', '.'} }

  predicate Blank(c: char) { c == ' ' || c == '\t' }

  /** White space as regular expressions have it. */
  predicate Space(c: char) {
    || Blank(c) || '\n' <= c <= '\r' || c == '\U{a0}' || c == '\U{1680}' || '\U{2000}' <= c <= '\U{200a}'
    || c == '\U{2028}' || c == '\U{2029}' || c == '\U{202f}' || c == '\U{205f}' || c == '\U{3000}' || c == '\U{feff}'
  }

  /** The first position from `i` on where `s` does not go on with blanks. */
  function SkipBlanks(s: string, i: nat): (r: nat)
    ensures i <= r && (i <= |s| ==> r <= |s|)
    ensures (forall k :: i <= k < r ==> k < |s| && Blank(s[k])) && (r < |s| ==> !Blank(s[r]))
    decreases |s| - i
  {
    if i < |s| && Blank(s[i]) then SkipBlanks(s, i + 1) else i
  }

  function SkipLetters(s: string, i: nat): (r: nat)
    ensures i <= r && (i <= |s| ==> r <= |s|)
    decreases |s| - i
  {
    if i < |s| && Letter(s[i]) then SkipLetters(s, i + 1) else i
  }

  function SkipSpaces(s: string, i: nat): (r: nat)
    ensures i <= r && (i <= |s| ==> r <= |s|)
    decreases |s| - i
  {
    if i < |s| && Space(s[i]) then SkipSpaces(s, i + 1) else i
  }

  predicate OccursAt(s: string, needle: string, i: nat) { i + |needle| <= |s| && s[i..i + |needle|] == needle }

  /** Where `needle` first occurs in `s` from `i` on. */
  function IndexOf(s: string, needle: string, i: nat): (r: Option<nat>)
    ensures r.Some? ==> i <= r.value && r.value + |needle| <= |s| && OccursAt(s, needle, r.value)
    ensures forall k: nat :: i <= k && OccursAt(s, needle, k) ==> r.Some? && r.value <= k
    decreases |s| - i
  {
    if i + |needle| > |s| then None
    else if OccursAt(s, needle, i) then Some(i)
    else IndexOf(s, needle, i + 1)
  }

  /** The parts of `s` between the separators. */
  function Split(s: string, separator: char): (parts: seq<string>)
    ensures |parts| > 0 && Total(parts) + |parts| == |s| + 1
    ensures forall i :: 0 <= i < |parts| ==> |parts[i]| <= |s|
  {
    if s == "" then [""]
    else
      var rest := Split(s[1..], separator);
      if s[0] == separator then [""] + rest
      else
        var parts := [[s[0]] + rest[0]] + rest[1..];
        assert rest == [rest[0]] + rest[1..];
        parts
  }

  function Rejoined(parts: seq<string>, separator: char): string {
    if parts == [] then "" else if |parts| == 1 then parts[0] else parts[0] + [separator] + Rejoined(parts[1..], separator)
  }

  lemma RejoinedFirst(c: char, parts: seq<string>, separator: char)
    requires parts != []
    ensures Rejoined([[c] + parts[0]] + parts[1..], separator) == [c] + Rejoined(parts, separator)
    ensures Rejoined([""] + parts, separator) == [separator] + Rejoined(parts, separator)
  {
    var first := [[c] + parts[0]] + parts[1..];
    assert first[1..] == parts[1..] && ([""] + parts)[1..] == parts;
    assert "" + [separator] + Rejoined(parts, separator) == [separator] + Rejoined(parts, separator);
    if |parts| > 1 {
      var rest := [separator] + Rejoined(parts[1..], separator);
      assert [c] + parts[0] + rest == [c] + (parts[0] + rest);
      assert parts[0] + [separator] + Rejoined(parts[1..], separator) == parts[0] + rest;
      assert [c] + parts[0] + [separator] + Rejoined(parts[1..], separator) == [c] + parts[0] + rest;
    }
  }

  /** Splitting loses nothing: with the separators between them the parts are the whole, and none holds a separator. */
  lemma {:induction false} SplitRejoins(s: string, separator: char)
    ensures Rejoined(Split(s, separator), separator) == s
    ensures forall i :: 0 <= i < |Split(s, separator)| ==> separator !in Split(s, separator)[i]
  {
    if s != "" {
      SplitRejoins(s[1..], separator);
      RejoinedFirst(s[0], Split(s[1..], separator), separator);
    }
  }

  function Total(parts: seq<string>): nat { if parts == [] then 0 else |parts[0]| + Total(parts[1..]) }

  /** The parts joined in pairs, and the pairs by a space. */
  function JoinPairs(parts: seq<string>): (r: string)
    ensures parts != [] ==> |r| < Total(parts) + |parts|
  {
    if parts == [] then ""
    else if |parts| == 1 then parts[0]
    else if |parts| == 2 then
      assert Total(parts) == |parts[0]| + |parts[1]| by {
        assert parts[1..][1..] == [] && Total(parts[1..]) == |parts[1]| + Total(parts[1..][1..]);
      }
      parts[0] + parts[1]
    else
      assert Total(parts) == |parts[0]| + |parts[1]| + Total(parts[2..]) by {
        assert parts[1..][1..] == parts[2..] && Total(parts[1..]) == |parts[1]| + Total(parts[1..][1..]);
      }
      parts[0] + parts[1] + " " + JoinPairs(parts[2..])
  }

  function Join(parts: seq<string>): (r: string)
    ensures |r| == Total(parts)
  {
    if parts == [] then "" else parts[0] + Join(parts[1..])
  }

  /** The rows of an environment, separated by a double backslash with an optional bracketed length. */
  function Rows(body: string, from: nat, i: nat): (rows: seq<string>)
    requires from <= i <= |body|
    ensures forall k :: 0 <= k < |rows| ==> |rows[k]| <= |body|
    decreases |body| - i
  {
    if i + 1 >= |body| then [body[from..]]
    else if body[i] == '\\' && body[i + 1] == '\\' then
      var next := SkipLength(body, i + 2);
      [body[from..i]] + Rows(body, next, next)
    else Rows(body, from, i + 1)
  }

  function SkipLength(s: string, i: nat): (r: nat)
    requires i <= |s|
    ensures i <= r <= |s|
  {
    if i < |s| && s[i] == '[' then
      var end := EndOfLength(s, i + 1);
      if end.Some? then end.value + 1 else i
    else i
  }

  function EndOfLength(s: string, i: nat): (r: Option<nat>)
    ensures r.Some? ==> i <= r.value < |s|
    decreases |s| - i
  {
    if i >= |s| || s[i] == '\n' then None else if s[i] == ']' then Some(i) else EndOfLength(s, i + 1)
  }

  /** The body without a leading column specification. */
  function WithoutSpec(body: string): (r: string)
    ensures |r| <= |body|
  {
    var start := SkipSpaces(body, 0);
    if start < |body| && body[start] == '{' then
      var end := IndexOf(body, "}", start);
      if end.Some? then body[end.value + 1..] else body
    else body
  }

  // ---------------------------------------------------------------------------------------------
  // The parser
  // ---------------------------------------------------------------------------------------------

  /** The markers of a fraction name nodes that come before it. */
  ghost predicate Grounded(nodes: seq<LayoutNode>) {
    forall i :: 0 <= i < |nodes| && nodes[i].Fraction? ==> Below(nodes[i].numerator, i) && Below(nodes[i].denominator, i)
  }

  /** Nodes are only added; of the old ones only a matrix may change. */
  ghost predicate Extends(before: seq<LayoutNode>, after: seq<LayoutNode>) {
    && |before| <= |after|
    && forall i :: 0 <= i < |before| ==> after[i] == before[i] || (before[i].Matrix? && after[i].Matrix?)
  }

  ghost predicate OnlyMatrices(before: seq<LayoutNode>, after: seq<LayoutNode>) {
    forall i :: |before| <= i < |after| ==> after[i].Matrix?
  }

  class NodeTable {
    var nodes: seq<LayoutNode>

    constructor ()
      ensures nodes == []
    {
      nodes := [];
    }

    method Push(node: LayoutNode) returns (marker: Text)
      requires Grounded(nodes)
      requires node.Fraction? ==> Below(node.numerator, |nodes|) && Below(node.denominator, |nodes|)
      modifies this
      ensures Grounded(nodes) && Extends(old(nodes), nodes) && nodes == old(nodes) + [node]
      ensures marker == [Marker(|old(nodes)|)] && Below(marker, |nodes|)
    {
      marker := [Marker(|nodes|)];
      nodes := nodes + [node];
    }

    /** A full stop right after a matrix goes into the matrix's last line. */
    method Absorb(result: Text, c: char) returns (absorbed: bool)
      requires Grounded(nodes)
      modifies this
      ensures Grounded(nodes) && Extends(old(nodes), nodes) && |nodes| == |old(nodes)|
      ensures absorbed <==> result != [] && result[|result| - 1].Marker?
                            && result[|result| - 1].index < |old(nodes)| && old(nodes)[result[|result| - 1].index].Matrix?
      ensures !absorbed ==> nodes == old(nodes)
    {
      absorbed := false;
      if result != [] && result[|result| - 1].Marker? && result[|result| - 1].index < |nodes| {
        var i := result[|result| - 1].index;
        if nodes[i].Matrix? {
          var lines := nodes[i].lines;
          lines := if lines == [] then [[Glyph(c)]] else lines[|lines| - 1 := lines[|lines| - 1] + [Glyph(c)]];
          nodes := nodes[i := Matrix(lines)];
          absorbed := true;
        }
      }
    }
  }

  class LatexParser {
    const source: string
    const table: NodeTable
    const tables: Tables
    const display: bool
    var position: nat
    var supported: bool
    var stackFractions: bool

    constructor (source: string, table: NodeTable, tables: Tables, display: bool)
      ensures this.source == source && this.table == table && this.tables == tables && this.display == display
      ensures position == 0 && supported && stackFractions
    {
      this.source, this.table, this.tables, this.display := source, table, tables, display;
      position, supported, stackFractions := 0, true, true;
    }

    ghost predicate Valid()
      reads this, table
    {
      AddsNoMarkers(tables) && Grounded(table.nodes)
    }

    /** The characters that remain; the position may run past the end by one. */
    ghost function Remaining(): nat
      reads this
    {
      if position <= |source| then |source| - position else 0
    }

    /** What every method does: it moves on, never makes an unsupported source supported, restores the stacking of
        fractions, and adds to the table nodes whose fractions are grounded, or only matrices when not in display mode. */
    ghost predicate Advanced(wasPosition: nat, wasSupported: bool, wasStacking: bool, wasNodes: seq<LayoutNode>)
      reads this, table
    {
      && Valid() && position >= wasPosition && (supported ==> wasSupported) && stackFractions == wasStacking
      && Extends(wasNodes, table.nodes) && (!display ==> OnlyMatrices(wasNodes, table.nodes))
    }

    /** Nothing but characters that stand for themselves from a position on. */
    ghost predicate SimpleFrom(p: nat) { forall i :: p <= i < |source| ==> Simple(source[i]) }

    method Render() returns (r: Option<Text>)
      requires Valid()
      modifies this, table
      ensures Advanced(old(position), old(supported), old(stackFractions), old(table.nodes))
      ensures r.Some? ==> supported && position == |source| && Below(r.value, |table.nodes|)
      ensures old(position) == 0 && old(supported) && SimpleFrom(0) ==> r == Some(tables.style("normalize", Plain(source)))
      decreases |source|, Remaining(), 5
    {
      var rendered := ParseSequence(None);
      assert source[0..] == source;
      if !supported || position != |source| {
        return None;
      }
      return Some(tables.style("normalize", rendered));
    }

    method ParseSequence(end: Option<char>) returns (result: Text)
      requires Valid()
      modifies this, table
      ensures Advanced(old(position), old(supported), old(stackFractions), old(table.nodes))
      ensures Below(result, |table.nodes|)
      ensures end.None? && old(position) <= |source| && SimpleFrom(old(position)) ==>
        position == |source| && supported == old(supported) && result == Plain(source[old(position)..])
      decreases |source|, Remaining(), 4
    {
      result := [];
      while position < |source|
        invariant Advanced(old(position), old(supported), old(stackFractions), old(table.nodes))
        invariant Below(result, |table.nodes|)
        invariant end.None? && old(position) <= |source| && SimpleFrom(old(position)) ==>
          position <= |source| && supported == old(supported) && result == Plain(source[old(position)..position])
        decreases |source| - position
      {
        var c := source[position];
        if end == Some(c) {
          position := position + 1;
          return;
        }
        if c == '}' {
          supported := false;
          return;
        }
        if c == '{' {
          position := position + 1;
          var group := ParseSequence(Some('}'));
          result := result + group;
        } else if c == '\\' {
          var negative, command := ParseCommand();
          result := if negative then tables.style("trimEnd", result) else result + command;
        } else if c == '^' || c == '_' {
          result := ParseScript(result);
        } else {
          result := TakeCharacter(result);
        }
      }
      if end.Some? {
        supported := false;
      }
    }

    /** A subscript or superscript, attached to what comes before it. */
    method ParseScript(before: Text) returns (result: Text)
      requires Valid() && position < |source| && source[position] in {'_', '^'} && Below(before, |table.nodes|)
      modifies this, table
      ensures Advanced(old(position) + 1, old(supported), old(stackFractions), old(table.nodes))
      ensures Below(result, |table.nodes|)
      ensures var p := SkipBlanks(source, old(position) + 1);
              Ordinary(old(position) + 1, p) ==>
                && position == p + 1 && supported == old(supported) && table.nodes == old(table.nodes)
                && result == tables.style("attach", tables.style("trimEnd", before)
                                                    + tables.style(if source[old(position)] == '^' then "sup" else "sub", [Glyph(source[p])]))
      decreases |source|, Remaining(), 3
    {
      var name := if source[position] == '_' then "sub" else "sup";
      position := position + 1;
      var script := ParseRequiredArgument(false);
      result := tables.style("attach", tables.style("trimEnd", before) + tables.style(name, script));
    }

    /** A character that starts neither a group, a command nor a script. */
    method TakeCharacter(before: Text) returns (result: Text)
      requires Valid() && position < |source| && Below(before, |table.nodes|)
      modifies this`position, table
      ensures Advanced(old(position) + 1, old(supported), old(stackFractions), old(table.nodes))
      ensures Below(result, |table.nodes|)
      ensures Simple(source[old(position)]) ==>
        result == before + [Glyph(source[old(position)])] && position == old(position) + 1 && table.nodes == old(table.nodes)
    {
      var c := source[position];
      result := before;
      if Space(c) {
        position := SkipSpaces(source, position + 1);
        result := result + [Glyph(' ')];
        return;
      }
      if c == '=' || c == '<' || c == '>' {
        result := tables.style("trimEnd", result) + [Glyph(' '), Glyph(c), Glyph(' ')];
      } else if c == '~' {
        result := result + [Glyph(' ')];
      } else if c != '&' {
        var absorbed := false;
        if c == '.' {
          absorbed := table.Absorb(result, c);
        }
        if !absorbed {
          result := result + [Glyph(c)];
        }
      }
      position := position + 1;
    }

    /** A command, from its backslash on; `negative` tells that it takes back the space before it. */
    method ParseCommand() returns (negative: bool, result: Text)
      requires Valid() && position < |source| && source[position] == '\\'
      modifies this, table
      ensures Advanced(old(position) + 1, old(supported), old(stackFractions), old(table.nodes))
      ensures Below(result, |table.nodes|)
      decreases |source|, Remaining(), 0
    {
      negative, result := false, [];
      var command := ReadCommandName();
      if command == "" {
        return;
      }
      var kind := tables.kind(command);
      if kind.Constant? {
        result := Plain(kind.text);
      } else if kind.NegativeSpace? {
        negative := true;
      } else if kind.Not? {
        var value := ParseRequiredArgument(false);
        value := tables.style("trim", value);
        if value == [] {
          supported := false;
        }
        result := tables.style("not", value);
      } else if kind.LimitOperator? {
        result := ParseOperator(Plain(kind.text), true, kind.spaced);
      } else if kind.Delimiter? {
        if position < |source| && source[position] == '.' {
          position := position + 1;
        }
      } else if kind.Frac? {
        result := ParseFraction(kind.inline);
      } else if kind.Root? {
        result := ParseRoot();
      } else if kind.Wrapper? {
        result := ParseWrapper(kind.arguments, kind.name);
      } else if kind.OperatorName? {
        result := ParseOperatorName();
      } else if kind.Begin? {
        result := ParseEnvironment();
      } else {
        supported := false;
        result := Plain(['\\'] + command);
      }
    }

    /** The next argument is one ordinary character, which stands at the given position. */
    predicate Ordinary(from: nat, at: nat) {
      at == SkipBlanks(source, from) && at < |source| && source[at] != '{' && source[at] != '\\'
    }

    /** The name after a backslash: a run of letters, or one other character. */
    method ReadCommandName() returns (command: string)
      requires Valid() && position < |source|
      modifies this`position, this`supported
      ensures Advanced(old(position) + 1, old(supported), old(stackFractions), old(table.nodes))
      ensures table.nodes == old(table.nodes)
      ensures command == "" ==> !supported
    {
      position := position + 1;
      if position >= |source| {
        supported := false;
        return "";
      }
      var start := position;
      if Letter(source[start]) {
        position := SkipLetters(source, start + 1);
      } else {
        position := start + 1;
      }
      command := source[start..position];
    }

    method ParseFraction(inline: bool) returns (result: Text)
      requires Valid()
      modifies this, table
      ensures Advanced(old(position), old(supported), old(stackFractions), old(table.nodes))
      ensures Below(result, |table.nodes|)
      ensures var p := SkipBlanks(source, old(position));
              var q := SkipBlanks(source, p + 1);
              Ordinary(old(position), p) && Ordinary(p + 1, q) ==>
                var above, below := [Glyph(source[p])], [Glyph(source[q])];
                && position == q + 1 && supported == old(supported)
                && (if display && stackFractions && !inline then
                      && table.nodes == old(table.nodes) + [Fraction(tables.style("normalize", above), tables.style("normalize", below))]
                      && result == [Marker(|old(table.nodes)|)]
                    else
                      table.nodes == old(table.nodes) && result == tables.style("fraction", above + [Glyph('/')] + below))
      decreases |source|, Remaining(), 3
    {
      var stack := display && stackFractions && !inline;
      var numerator := ParseRequiredArgument(!stack);
      var denominator := ParseRequiredArgument(!stack);
      if stack {
        result := table.Push(Fraction(tables.style("normalize", numerator), tables.style("normalize", denominator)));
      } else {
        result := tables.style("fraction", numerator + [Glyph('/')] + denominator);
      }
    }

    method ParseRoot() returns (result: Text)
      requires Valid()
      modifies this, table
      ensures Advanced(old(position), old(supported), old(stackFractions), old(table.nodes))
      ensures Below(result, |table.nodes|)
      ensures var p := SkipBlanks(source, old(position));
              Ordinary(old(position), p) && source[p] != '[' ==> result == tables.style("root", [Glyph(source[p])])
      decreases |source|, Remaining(), 3
    {
      var degree := ParseOptionalArgument();
      var value := ParseRequiredArgument(true);
      result := (if degree.None? then [] else tables.style("sup", degree.value)) + tables.style("root", value);
    }

    method ParseWrapper(arguments: nat, name: string) returns (result: Text)
      requires Valid()
      modifies this, table
      ensures Advanced(old(position), old(supported), old(stackFractions), old(table.nodes))
      ensures Below(result, |table.nodes|)
      decreases |source|, Remaining(), 3
    {
      result := [];
      var i := 0;
      while i < arguments
        invariant Advanced(old(position), old(supported), old(stackFractions), old(table.nodes))
        invariant Below(result, |table.nodes|)
      {
        var value := ParseRequiredArgument(true);
        result := result + value;
        i := i + 1;
      }
      result := tables.style(name, result);
    }

    method ParseOperatorName() returns (result: Text)
      requires Valid()
      modifies this, table
      ensures Advanced(old(position), old(supported), old(stackFractions), old(table.nodes))
      ensures Below(result, |table.nodes|)
      decreases |source|, Remaining(), 5
    {
      var starred := position < |source| && source[position] == '*';
      if starred {
        position := position + 1;
      }
      var operator := ParseRequiredArgument(true);
      result := ParseOperator(tables.style("normalize", operator), starred, true);
    }

    /** Limits of an operator, stacked in display mode and written inline otherwise. */
    method ParseOperator(operator: Text, displayLimits: bool, spaced: bool) returns (result: Text)
      requires Valid() && Below(operator, |table.nodes|)
      modifies this, table
      ensures Advanced(old(position), old(supported), old(stackFractions), old(table.nodes))
      ensures Below(result, |table.nodes|)
      decreases |source|, Remaining(), 4
    {
      var limits := ReadLimitsModifier(displayLimits);
      var lower, upper := ReadScripts();
      if display && limits && (lower.Some? || upper.Some?) {
        result := table.Push(Operator(operator, lower, upper));
      } else {
        result := operator + OptionalScript("sub", lower) + OptionalScript("sup", upper);
        result := if spaced then [Glyph(' ')] + result + [Glyph(' ')] else result;
      }
    }

    function OptionalScript(name: string, script: Option<Text>): (r: Text)
      requires AddsNoMarkers(tables)
      ensures forall n :: (script.Some? ==> Below(script.value, n)) ==> Below(r, n)
    {
      if script.None? then [] else tables.style(name, script.value)
    }

    /** The scripts that follow an operator; a second one of the same kind is not supported. */
    method ReadScripts() returns (lower: Option<Text>, upper: Option<Text>)
      requires Valid()
      modifies this, table
      ensures Advanced(old(position), old(supported), old(stackFractions), old(table.nodes))
      ensures lower.Some? ==> '_' in From(old(position))
      ensures upper.Some? ==> '^' in From(old(position))
      ensures lower.Some? ==> Below(lower.value, |table.nodes|)
      ensures upper.Some? ==> Below(upper.value, |table.nodes|)
      decreases |source|, Remaining(), 3
    {
      lower, upper := None, None;
      while true
        invariant Advanced(old(position), old(supported), old(stackFractions), old(table.nodes))
        invariant ScriptOk(lower, '_', From(old(position)), |table.nodes|)
        invariant ScriptOk(upper, '^', From(old(position)), |table.nodes|)
        decreases Remaining()
      {
        var at := SkipBlanks(source, position);
        if at >= |source| || (source[at] != '_' && source[at] != '^') {
          break;
        }
        var kind := source[at];
        InFrom(old(position), at);
        var value := ReadScript(at);
        if kind == '_' {
          supported := supported && lower.None?;
          lower := Some(value);
        } else {
          supported := supported && upper.None?;
          upper := Some(value);
        }
      }
    }

    ghost predicate ScriptOk(script: Option<Text>, kind: char, rest: string, n: nat) {
      script.Some? ==> Below(script.value, n) && kind in rest
    }

    lemma InFrom(p: nat, at: nat)
      requires p <= at < |source|
      ensures source[at] in From(p)
    {
      assert From(p)[at - p] == source[at];
    }

    /** The script after a mark. */
    method ReadScript(at: nat) returns (value: Text)
      requires Valid() && position <= at < |source|
      modifies this, table
      ensures Advanced(at + 1, old(supported), old(stackFractions), old(table.nodes))
      ensures Below(value, |table.nodes|)
      ensures var p := SkipBlanks(source, at + 1); Ordinary(at + 1, p) ==> value == tables.style("compact", [Glyph(source[p])])
      decreases |source|, Remaining(), 2
    {
      position := at + 1;
      value := ParseRequiredArgument(false);
      value := tables.style("compact", value);
    }

    /** What remains of the source from a position on. */
    ghost function From(p: nat): string { if p <= |source| then source[p..] else "" }

    /** An explicit `limits` or `nolimits` after an operator. */
    method ReadLimitsModifier(displayLimits: bool) returns (limits: bool)
      requires Valid()
      modifies this`position
      ensures Advanced(old(position), old(supported), old(stackFractions), old(table.nodes))
      ensures table.nodes == old(table.nodes)
    {
      limits := displayLimits;
      var at := SkipBlanks(source, position);
      if at < |source| && source[at] == '\\' {
        var end := SkipLetters(source, at + 1);
        var name := source[at + 1..end];
        if name == "limits" || name == "nolimits" {
          limits, position := name == "limits", end;
        }
      }
    }

    /** An ordinary character is itself the argument; a missing argument is empty and not supported. */
    ghost predicate ArgumentRead(from: nat, value: Text, wasSupported: bool, wasNodes: seq<LayoutNode>)
      reads this, table
    {
      var p := SkipBlanks(source, from);
      && (Ordinary(from, p) ==>
            position == p + 1 && supported == wasSupported && table.nodes == wasNodes && value == [Glyph(source[p])])
      && (p >= |source| ==> value == [] && !supported)
    }

    method ParseRequiredArgument(stacking: bool) returns (value: Text)
      requires Valid()
      modifies this, table
      ensures Advanced(old(position), old(supported), old(stackFractions), old(table.nodes))
      ensures Below(value, |table.nodes|)
      ensures ArgumentRead(old(position), value, old(supported), old(table.nodes))
      decreases |source|, Remaining(), 2
    {
      var previous := stackFractions;
      stackFractions := previous && stacking;
      value := ParseRequiredArgumentValue();
      stackFractions := previous;
    }

    method ParseRequiredArgumentValue() returns (value: Text)
      requires Valid()
      modifies this, table
      ensures Advanced(old(position), old(supported), old(stackFractions), old(table.nodes))
      ensures Below(value, |table.nodes|)
      ensures ArgumentRead(old(position), value, old(supported), old(table.nodes))
      decreases |source|, Remaining(), 1
    {
      position := SkipBlanks(source, position);
      if position >= |source| {
        supported := false;
        return [];
      }
      if source[position] == '{' {
        position := position + 1;
        value := ParseSequence(Some('}'));
      } else if source[position] == '\\' {
        var negative;
        negative, value := ParseCommand();
      } else {
        value := [Glyph(source[position])];
        position := position + 1;
      }
    }

    method ParseOptionalArgument() returns (value: Option<Text>)
      requires Valid()
      modifies this, table
      ensures Advanced(old(position), old(supported), old(stackFractions), old(table.nodes))
      ensures value.Some? ==> Below(value.value, |table.nodes|)
      ensures var p := SkipBlanks(source, old(position));
              p >= |source| || source[p] != '[' ==> value == None && position == p && supported == old(supported)
      decreases |source|, Remaining(), 2
    {
      position := SkipBlanks(source, position);
      if position >= |source| || source[position] != '[' {
        return None;
      }
      var end := IndexOf(source, "]", position + 1);
      if end.None? {
        supported := false;
        return None;
      }
      var inner := source[position + 1..end.value];
      position := end.value + 1;
      var rendered := RenderNested(inner, true);
      value := Some(rendered);
    }

    /** A nested parser over a part of the source, which shares the table; an unsupported part is kept as it is. */
    method RenderNested(part: string, stacking: bool) returns (result: Text)
      requires Valid() && |part| < |source|
      modifies this, table
      ensures Advanced(old(position), old(supported), old(stackFractions), old(table.nodes)) && position == old(position)
      ensures Below(result, |table.nodes|)
      decreases |source|, Remaining(), 0
    {
      var parser := new LatexParser(part, table, tables, display && stacking);
      var rendered := parser.Render();
      if rendered.None? {
        supported := false;
        result := Plain(part);
      } else {
        result := rendered.value;
      }
    }

    /** The text between braces, as it stands; an escaped last character takes the position past the end. */
    method ReadRawGroup() returns (group: Option<string>)
      requires Valid()
      modifies this`position, this`supported
      ensures Advanced(old(position), old(supported), old(stackFractions), old(table.nodes))
      ensures table.nodes == old(table.nodes)
    {
      position := SkipBlanks(source, position);
      if position >= |source| || source[position] != '{' {
        supported := false;
        return None;
      }
      position := position + 1;
      var start, depth := position, 1;
      while position < |source|
        invariant start <= position && old(position) <= position && supported == old(supported)
        decreases |source| - position
      {
        var c := source[position];
        if c == '\\' {
          position := position + 2;
        } else {
          depth := if c == '{' then depth + 1 else if c == '}' then depth - 1 else depth;
          if depth == 0 {
            var value := source[start..position];
            position := position + 1;
            return Some(value);
          }
          position := position + 1;
        }
      }
      supported := false;
      return None;
    }

    method ParseEnvironment() returns (result: Text)
      requires Valid()
      modifies this, table
      ensures Advanced(old(position), old(supported), old(stackFractions), old(table.nodes))
      ensures Below(result, |table.nodes|)
      decreases |source|, Remaining(), 3
    {
      var name := ReadRawGroup();
      if name.None? || name.value == "" {
        return [];
      }
      var marker := "\\end{" + name.value + "}";
      var end := IndexOf(source, marker, position);
      if end.None? {
        supported := false;
        return [];
      }
      var body := source[position..end.value];
      position := end.value + |marker|;
      var environment := tables.environment(name.value);
      if environment.Equation? {
        result := RenderNested(body, true);
        result := tables.style("trim", result);
      } else if environment.Aligned? {
        result := RenderAligned(if environment.at then WithoutSpec(body) else body, environment.at);
      } else if environment.Cases? {
        var rows := RenderRows(body);
        LinesBelow(rows, |table.nodes|);
        result := tables.style("cases", Lines(rows));
      } else if environment.Grid? {
        result := RenderMatrix(if environment.spec then WithoutSpec(body) else body, environment.bare);
      } else {
        supported := false;
        result := Plain(body);
      }
    }

    /** The rows of an aligned environment, one line each. */
    method RenderAligned(body: string, at: bool) returns (result: Text)
      requires Valid() && |body| < |source|
      modifies this, table
      ensures Advanced(old(position), old(supported), old(stackFractions), old(table.nodes)) && position == old(position)
      ensures Below(result, |table.nodes|)
      decreases |source|, Remaining(), 1
    {
      var rows := Rows(body, 0, 0);
      result := [];
      var i := 0;
      while i < |rows|
        invariant Advanced(old(position), old(supported), old(stackFractions), old(table.nodes)) && position == old(position)
        invariant Below(result, |table.nodes|)
      {
        var cells := Split(rows[i], '&');
        var line := RenderNested(if at then JoinPairs(cells) else Join(cells), true);
        line := tables.style("trim", line);
        if line != [] {
          result := if result == [] then line else result + [Glyph('\n')] + line;
        }
        i := i + 1;
      }
    }

    /** The rows that are not empty, each cell rendered without stacking. */
    method RenderRows(body: string) returns (lines: seq<Text>)
      requires Valid() && |body| < |source|
      modifies this, table
      ensures Advanced(old(position), old(supported), old(stackFractions), old(table.nodes)) && position == old(position)
      ensures forall i :: 0 <= i < |lines| ==> Below(lines[i], |table.nodes|)
      decreases |source|, Remaining(), 2
    {
      var rows := Rows(body, 0, 0);
      lines := [];
      var i := 0;
      while i < |rows|
        invariant Advanced(old(position), old(supported), old(stackFractions), old(table.nodes)) && position == old(position)
        invariant forall k :: 0 <= k < |lines| ==> Below(lines[k], |table.nodes|)
      {
        var some, line := RenderRow(rows[i]);
        if some {
          lines := lines + [line];
        }
        i := i + 1;
      }
    }

    /** The cells of a row, and whether one of them is not empty. */
    method RenderRow(row: string) returns (some: bool, line: Text)
      requires Valid() && |row| < |source|
      modifies this, table
      ensures Advanced(old(position), old(supported), old(stackFractions), old(table.nodes)) && position == old(position)
      ensures Below(line, |table.nodes|)
      decreases |source|, Remaining(), 1
    {
      var cells := Split(row, '&');
      some, line := false, [];
      var i := 0;
      while i < |cells|
        invariant Advanced(old(position), old(supported), old(stackFractions), old(table.nodes)) && position == old(position)
        invariant Below(line, |table.nodes|)
      {
        var cell := RenderNested(cells[i], false);
        cell := tables.style("trim", cell);
        some := some || cell != [];
        line := if i == 0 then cell else line + [Glyph('|')] + cell;
        i := i + 1;
      }
    }

    /** A matrix of several rows becomes a node; one row is written inline. */
    method RenderMatrix(body: string, bare: bool) returns (result: Text)
      requires Valid() && |body| < |source|
      modifies this, table
      ensures Advanced(old(position), old(supported), old(stackFractions), old(table.nodes)) && position == old(position)
      ensures Below(result, |table.nodes|)
      decreases |source|, Remaining(), 3
    {
      var rows := RenderRows(body);
      var lines: seq<Text> := [];
      var i := 0;
      while i < |rows|
        invariant 0 <= i <= |rows| && |lines| == i
        invariant forall k :: 0 <= k < i ==> Below(lines[k], |table.nodes|)
      {
        lines := lines + [if bare then rows[i] else tables.style("delimit", rows[i])];
        i := i + 1;
      }
      if |lines| <= 1 {
        result := if lines == [] then [] else lines[0];
      } else {
        result := table.Push(Matrix(lines));
      }
    }
  }

  function Lines(rows: seq<Text>): Text {
    if rows == [] then [] else if |rows| == 1 then rows[0] else rows[0] + [Glyph('\n')] + Lines(rows[1..])
  }

  lemma {:induction false} LinesBelow(rows: seq<Text>, n: nat)
    requires forall i :: 0 <= i < |rows| ==> Below(rows[i], n)
    ensures Below(Lines(rows), n)
  {
    if |rows| > 1 {
      LinesBelow(rows[1..], n);
    }
  }

  // ---------------------------------------------------------------------------------------------
  // Layout of the rendered text
  // ---------------------------------------------------------------------------------------------

  datatype Layout = Layout(lines: seq<Text>, width: nat, baseline: nat)

  /** The baseline is one of the lines. */
  ghost predicate Drawn(l: Layout) { l.baseline < |l.lines| }

  ghost predicate AllDrawn(ls: seq<Layout>) { forall i :: 0 <= i < |ls| ==> Drawn(ls[i]) }

  function Spaces(n: nat): Text { seq(n, _ => Glyph(' ')) }

  /** A line filled up to a width, as `measure` tells widths. */
  function Pad(line: Text, width: nat, measure: Text -> nat): Text {
    line + Spaces(if measure(line) < width then width - measure(line) else 0)
  }

  function Above(ls: seq<Layout>): nat {
    if ls == [] then 0
    else var rest := Above(ls[1..]); if ls[0].baseline < rest then rest else ls[0].baseline
  }

  function Under(l: Layout): nat { if l.baseline < |l.lines| then |l.lines| - l.baseline - 1 else 0 }

  function Beneath(ls: seq<Layout>): nat {
    if ls == [] then 0
    else var rest := Beneath(ls[1..]); if Under(ls[0]) < rest then rest else Under(ls[0])
  }

  function Width(ls: seq<Layout>): nat { if ls == [] then 0 else ls[0].width + Width(ls[1..]) }

  /** What a layout shows in a row of the joined layout. */
  function Cell(l: Layout, row: nat, baseline: nat, measure: Text -> nat): Text {
    var k := row as int - baseline + l.baseline;
    if 0 <= k < |l.lines| then Pad(l.lines[k], l.width, measure) else Spaces(l.width)
  }

  function Row(ls: seq<Layout>, row: nat, baseline: nat, measure: Text -> nat): Text {
    if ls == [] then [] else Cell(ls[0], row, baseline, measure) + Row(ls[1..], row, baseline, measure)
  }

  predicate White(t: Token) { t.Glyph? && Space(t.c) }

  function TrimStart(t: Text): Text { if t != [] && White(t[0]) then TrimStart(t[1..]) else t }

  function TrimEnd(t: Text): (r: Text)
    ensures r <= t
  {
    if t != [] && White(t[|t| - 1]) then TrimEnd(t[..|t| - 1]) else t
  }

  /** Layouts side by side on a common baseline, without the spaces at the end of a row. */
  function JoinLayouts(ls: seq<Layout>, measure: Text -> nat): (r: Layout)
    ensures Drawn(r)
  {
    if ls == [] then Layout([[]], 0, 0)
    else
      var baseline := Above(ls);
      Layout(seq(baseline + Beneath(ls) + 1, row requires 0 <= row => TrimEnd(Row(ls, row, baseline, measure))), Width(ls), baseline)
  }

  /** Joining loses no line: every line of every layout falls in a row, and the baselines fall in the same one. */
  lemma {:induction false} JoinKeepsEveryLine(ls: seq<Layout>, i: nat, k: nat, measure: Text -> nat)
    requires i < |ls| && k < |ls[i].lines| && AllDrawn(ls)
    ensures var r := JoinLayouts(ls, measure);
            var row := k as int - ls[i].baseline + r.baseline;
            && 0 <= row < |r.lines|
            && Cell(ls[i], row, r.baseline, measure) == Pad(ls[i].lines[k], ls[i].width, measure)
            && (k == ls[i].baseline ==> row == r.baseline)
  {
    Bounds(ls, i);
  }

  lemma {:induction false} Bounds(ls: seq<Layout>, i: nat)
    requires i < |ls|
    ensures ls[i].baseline <= Above(ls) && Under(ls[i]) <= Beneath(ls)
  {
    if i > 0 {
      Bounds(ls[1..], i - 1);
    }
  }

  /** The length of the run of glyphs at the start. */
  function RunLength(line: Text): (n: nat)
    ensures n <= |line| && (n < |line| ==> line[n].Marker?) && (line != [] && line[0].Glyph? ==> n > 0)
  {
    if line == [] || line[0].Marker? then 0 else 1 + RunLength(line[1..])
  }

  /** Where the first line ends. */
  function LineEnd(text: Text): (n: nat)
    ensures n <= |text|
  {
    if text == [] || text[0] == Glyph('\n') then 0 else 1 + LineEnd(text[1..])
  }

  /** The text between two nodes: without the spaces next to them, but for one next to a matrix. */
  function Segment(sliced: Text, previous: Option<LayoutNode>, next: Option<LayoutNode>): Text {
    var started := if previous.Some? then TrimStart(sliced) else sliced;
    var lead := previous.Some? && previous.value.Matrix? && sliced != [] && White(sliced[0]);
    if next.None? then (if lead then Spaces(1) else []) + started
    else
      var trimmed := TrimEnd(started);
      var trail := next.value.Matrix? && sliced != [] && White(sliced[|sliced| - 1]);
      if trimmed == [] then Spaces(if lead || trail then 1 else 0)
      else (if lead then Spaces(1) else []) + trimmed + (if trail then Spaces(1) else [])
  }

  /** What of a text is not white space. */
  function Visible(t: Text): Text { if t == [] then [] else Ink(t[0]) + Visible(t[1..]) }

  function Ink(t: Token): Text { if White(t) then [] else [t] }

  lemma {:induction false} VisibleConcat(a: Text, b: Text)
    ensures Visible(a + b) == Visible(a) + Visible(b)
  {
    if a == [] {
      assert a + b == b;
    } else {
      VisibleConcat(a[1..], b);
      assert (a + b)[0] == a[0] && (a + b)[1..] == a[1..] + b;
      var x, y, z := Ink(a[0]), Visible(a[1..]), Visible(b);
      assert x + (y + z) == x + y + z;
    }
  }

  lemma {:induction false} TrimStartKeeps(t: Text)
    ensures Visible(TrimStart(t)) == Visible(t)
  {
    if t != [] && White(t[0]) {
      TrimStartKeeps(t[1..]);
    }
  }

  lemma {:induction false} TrimEndKeeps(t: Text)
    ensures Visible(TrimEnd(t)) == Visible(t)
  {
    if t != [] && White(t[|t| - 1]) {
      var init, last := t[..|t| - 1], t[|t| - 1];
      TrimEndKeeps(init);
      VisibleConcat(init, [last]);
      assert t == init + [last] && [last][1..] == [] && Visible([last]) == [];
    }
  }

  lemma OneSpace()
    ensures Visible(Spaces(1)) == [] && Visible(Spaces(0)) == []
  {
    assert Spaces(1)[1..] == [];
  }

  /** Trimming between nodes loses nothing visible and adds nothing visible. */
  lemma SegmentKeepsVisible(sliced: Text, previous: Option<LayoutNode>, next: Option<LayoutNode>)
    ensures Visible(Segment(sliced, previous, next)) == Visible(sliced)
  {
    var started := if previous.Some? then TrimStart(sliced) else sliced;
    var lead := previous.Some? && previous.value.Matrix? && sliced != [] && White(sliced[0]);
    TrimStartKeeps(sliced);
    TrimEndKeeps(started);
    OneSpace();
    var before := if lead then Spaces(1) else [];
    if next.None? {
      Unseen(before, started, []);
      assert before + started + [] == before + started;
    } else {
      Unseen(before, TrimEnd(started), if next.value.Matrix? && sliced != [] && White(sliced[|sliced| - 1]) then Spaces(1) else []);
    }
  }

  lemma Unseen(before: Text, t: Text, after: Text)
    requires Visible(before) == [] && Visible(after) == []
    ensures Visible(before + t + after) == Visible(t)
  {
    VisibleConcat(before, t);
    VisibleConcat(before + t, after);
  }

  /** `renderLayout`. A fraction's parts are rendered with the nodes before it only, which is why this ends. */
  function RenderLayout(text: Text, nodes: seq<LayoutNode>, bound: nat, measure: Text -> nat): (r: Layout)
    requires Grounded(nodes) && bound <= |nodes| && Below(text, bound)
    ensures Drawn(r)
    decreases bound, 2, |text|
  {
    var l := RenderLines(text, nodes, bound, measure);
    l.(width := Widest(l.lines, measure))
  }

  /** The source lines, one below the other, on the baseline of the first. */
  function RenderLines(text: Text, nodes: seq<LayoutNode>, bound: nat, measure: Text -> nat): (r: Layout)
    requires Grounded(nodes) && bound <= |nodes| && Below(text, bound)
    ensures Drawn(r)
    decreases bound, 1, |text|
  {
    var n := LineEnd(text);
    var first := JoinLayouts(RenderPieces(text[..n], None, nodes, bound, measure), measure);
    if n == |text| then first
    else first.(lines := first.lines + RenderLines(text[n + 1..], nodes, bound, measure).lines)
  }

  /** The nodes of a line and the text between them, after the node `previous`. */
  function RenderPieces(line: Text, previous: Option<LayoutNode>, nodes: seq<LayoutNode>, bound: nat, measure: Text -> nat):
    (r: seq<Layout>)
    requires Grounded(nodes) && bound <= |nodes| && Below(line, bound)
    ensures AllDrawn(r)
    decreases bound, 0, |line|
  {
    if line == [] then []
    else if line[0].Marker? then
      [RenderNode(line[0].index, nodes, measure)] + RenderPieces(line[1..], Some(nodes[line[0].index]), nodes, bound, measure)
    else
      var n := RunLength(line);
      var text := Segment(line[..n], previous, if n < |line| then Some(nodes[line[n].index]) else None);
      [Layout([text], measure(text), 0)] + RenderPieces(line[n..], previous, nodes, bound, measure)
  }

  function RenderNode(i: nat, nodes: seq<LayoutNode>, measure: Text -> nat): (r: Layout)
    requires Grounded(nodes) && i < |nodes|
    ensures Drawn(r)
    decreases i, 3, 0
  {
    match nodes[i]
    case Fraction(numerator, denominator) =>
      Stacked(RenderLayout(numerator, nodes, i, measure), RenderLayout(denominator, nodes, i, measure), measure)
    case Operator(operator, lower, upper) =>
      var lines := (if upper.Some? then [upper.value] else []) + [operator] + (if lower.Some? then [lower.value] else []);
      var content := Widest(lines, measure);
      Layout(Spaced(Centered(lines, content, measure)), content + 1, if upper.Some? then 1 else 0)
    case Matrix(lines) =>
      var width := Widest(lines, measure);
      Layout(if lines == [] then [[]] else Padded(lines, width, measure), width, 0)
  }

  lemma {:induction false} SpacesUnseen(n: nat)
    ensures Visible(Spaces(n)) == []
  {
    if n > 0 {
      assert Spaces(n)[1..] == Spaces(n - 1);
      SpacesUnseen(n - 1);
    }
  }

  /** Centering and padding show what the line shows. */
  lemma CenteredShows(lines: seq<Text>, width: nat, measure: Text -> nat, i: nat)
    requires i < |lines|
    ensures Visible(Centered(lines, width, measure)[i]) == Visible(lines[i])
  {
    var room := if measure(lines[i]) < width then width - measure(lines[i]) else 0;
    var odd := if measure(lines[i]) < width then width - measure(lines[i]) + 1 else 0;
    SpacesUnseen(room / 2);
    SpacesUnseen(odd / 2);
    Unseen(Spaces(room / 2), lines[i], Spaces(odd / 2));
  }

  /** A fraction shows the lines of its numerator, then its rule, on the baseline, then the lines of its denominator. */
  lemma FractionStacks(i: nat, nodes: seq<LayoutNode>, measure: Text -> nat, k: nat)
    requires Grounded(nodes) && i < |nodes| && nodes[i].Fraction?
    ensures var r := RenderNode(i, nodes, measure);
            var above := RenderLayout(nodes[i].numerator, nodes, i, measure);
            var below := RenderLayout(nodes[i].denominator, nodes, i, measure);
            StackShows(r, above, below, k)
  {
    StackedShows(RenderLayout(nodes[i].numerator, nodes, i, measure), RenderLayout(nodes[i].denominator, nodes, i, measure), measure, k);
  }

  /** The `k`-th line above the rule, character of the rule, and line below it. */
  ghost predicate StackShows(r: Layout, above: Layout, below: Layout, k: nat) {
    && r.baseline == |above.lines| && |r.lines| == |above.lines| + 1 + |below.lines|
    && r.width >= above.width + 2 && r.width >= below.width + 2 && |r.lines[r.baseline]| == r.width
    && (k < |above.lines| ==> Visible(r.lines[k]) == Visible(above.lines[k]))
    && (0 < k < r.width - 1 ==> r.lines[r.baseline][k] == Glyph('\U{2500}'))
    && (k < |below.lines| ==> Visible(r.lines[r.baseline + 1 + k]) == Visible(below.lines[k]))
  }

  lemma StackedShows(above: Layout, below: Layout, measure: Text -> nat, k: nat)
    ensures StackShows(Stacked(above, below, measure), above, below, k)
  {
    var width := Max(Max(above.width, below.width), 1) + 2;
    var r, a, b := Stacked(above, below, measure), Centered(above.lines, width, measure), Centered(below.lines, width, measure);
    if k < |above.lines| {
      CenteredShows(above.lines, width, measure, k);
      assert r.lines[k] == a[k];
    }
    if k < |below.lines| {
      CenteredShows(below.lines, width, measure, k);
      assert r.lines[r.baseline + 1 + k] == b[k];
    }
  }

  /** An operator shows its upper limit above it and its lower limit below it, with itself on the baseline. */
  lemma LimitsStack(i: nat, nodes: seq<LayoutNode>, measure: Text -> nat)
    requires Grounded(nodes) && i < |nodes| && nodes[i].Operator?
    ensures var r, o := RenderNode(i, nodes, measure), nodes[i];
            && |r.lines| == 1 + (if o.upper.Some? then 1 else 0) + (if o.lower.Some? then 1 else 0)
            && r.baseline == (if o.upper.Some? then 1 else 0)
            && Visible(r.lines[r.baseline]) == Visible(o.operator)
            && (o.upper.Some? ==> Visible(r.lines[0]) == Visible(o.upper.value))
            && (o.lower.Some? ==> Visible(r.lines[r.baseline + 1]) == Visible(o.lower.value))
  {
    var o := nodes[i];
    var lines := (if o.upper.Some? then [o.upper.value] else []) + [o.operator] + (if o.lower.Some? then [o.lower.value] else []);
    var width := Widest(lines, measure);
    forall k | 0 <= k < |lines|
      ensures Visible(Spaced(Centered(lines, width, measure))[k]) == Visible(lines[k])
    {
      CenteredShows(lines, width, measure, k);
      OneSpace();
      Unseen([], Centered(lines, width, measure)[k], Spaces(1));
      assert [] + Centered(lines, width, measure)[k] == Centered(lines, width, measure)[k];
    }
  }

  /** A matrix shows its rows, one below the other, with the first on the baseline. */
  lemma MatrixStacks(i: nat, nodes: seq<LayoutNode>, measure: Text -> nat)
    requires Grounded(nodes) && i < |nodes| && nodes[i].Matrix? && nodes[i].lines != []
    ensures var r := RenderNode(i, nodes, measure);
            && r.baseline == 0 && |r.lines| == |nodes[i].lines|
            && forall k :: 0 <= k < |r.lines| ==> nodes[i].lines[k] <= r.lines[k] && Visible(r.lines[k]) == Visible(nodes[i].lines[k])
  {
    var r, lines := RenderNode(i, nodes, measure), nodes[i].lines;
    forall k | 0 <= k < |r.lines|
      ensures Visible(r.lines[k]) == Visible(lines[k])
    {
      var n: nat :| r.lines[k] == lines[k] + Spaces(n);
      SpacesUnseen(n);
      VisibleConcat(lines[k], Spaces(n));
    }
  }

  function Max(a: nat, b: nat): nat { if a < b then b else a }

  function Padded(lines: seq<Text>, width: nat, measure: Text -> nat): (r: seq<Text>)
    ensures |r| == |lines|
  {
    seq(|lines|, i requires 0 <= i < |lines| => Pad(lines[i], width, measure))
  }

  /** Two layouts on either side of a rule. */
  function Stacked(above: Layout, below: Layout, measure: Text -> nat): (r: Layout)
    ensures Drawn(r)
  {
    var content := Max(Max(above.width, below.width), 1);
    var rule := Spaces(1) + seq(content, _ => Glyph('\U{2500}')) + Spaces(1);
    Layout(Centered(above.lines, content + 2, measure) + [rule] + Centered(below.lines, content + 2, measure), content + 2,
           |above.lines|)
  }

  /** Lines filled up on both sides, the odd space on the right. */
  function Centered(lines: seq<Text>, width: nat, measure: Text -> nat): (r: seq<Text>)
    ensures |r| == |lines|
  {
    seq(|lines|, i requires 0 <= i < |lines| =>
      Spaces((if measure(lines[i]) < width then width - measure(lines[i]) else 0) / 2)
      + lines[i]
      + Spaces((if measure(lines[i]) < width then width - measure(lines[i]) + 1 else 0) / 2))
  }

  function Spaced(lines: seq<Text>): (r: seq<Text>)
    ensures |r| == |lines|
  {
    seq(|lines|, i requires 0 <= i < |lines| => lines[i] + Spaces(1))
  }

  function Widest(lines: seq<Text>, measure: Text -> nat): nat {
    if lines == [] then 0
    else var rest := Widest(lines[1..], measure); if measure(lines[0]) < rest then rest else measure(lines[0])
  }

  /** `renderLatex` up to the final trimming, for every source: the parser ends, the markers of its text name nodes of
      the table, and the table is grounded, so laying the text out ends too; inline math never stacks. */
  method RenderLatex(source: string, tables: Tables, display: bool, measure: Text -> nat)
    returns (r: Option<seq<Text>>, text: Text, nodes: seq<LayoutNode>)
    requires AddsNoMarkers(tables)
    ensures Grounded(nodes) && Below(text, |nodes|) && (!display ==> OnlyMatrices([], nodes))
    ensures r.Some? ==> r.value == (if nodes == [] then [text] else RenderLayout(text, nodes, |nodes|, measure).lines)
    ensures r.Some? && nodes == [] ==> NoMarkers(text)
  {
    var table := new NodeTable();
    var parser := new LatexParser(source, table, tables, display);
    var rendered := parser.Render();
    nodes, text := table.nodes, if rendered.Some? then rendered.value else [];
    if rendered.None? {
      r := None;
    } else if table.nodes == [] {
      r := Some([rendered.value]);
    } else {
      r := Some(RenderLayout(rendered.value, table.nodes, |table.nodes|, measure).lines);
    }
  }
}
