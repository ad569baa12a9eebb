// From the text of a source line to the statement it is: what both passes of
// the assembler read off a line.
module AsmText {
  import opened AsmNumbers

  const MAX_WORD_SIZE := 32
  const MAX_WORDS := 6

  predicate IsSpace(c: char) {
    c == ' ' || '\t' <= c <= '\r'
  }

  function ToUpper(c: char): char {
    if 'a' <= c <= 'z' then 'A' + (c - 'a') else c
  }

  // remove_remarks: up to the first ; that is not between double quotes.
  function RemarkLess(line: string, quoted: bool): string {
    if line == "" then ""
    else if line[0] == ';' && !quoted then ""
    else [line[0]] + RemarkLess(line[1..], if line[0] == '"' then !quoted else quoted)
  }

  function DropSpaces(line: string): (r: string)
    ensures r != "" ==> !IsSpace(r[0])
  {
    if line != "" && IsSpace(line[0]) then DropSpaces(line[1..]) else line
  }

  function DropTrailing(line: string): string {
    if line != "" && IsSpace(line[|line| - 1]) then DropTrailing(line[..|line| - 1]) else line
  }

  // Upper case outside strings and character constants.
  function UpperCase(line: string, inString: bool, inChar: bool): string {
    if line == "" then ""
    else
      var s := if !inChar && line[0] == '"' then !inString else inString;
      var c := if !s && line[0] == '\'' then !inChar else inChar;
      [if !s && !c then ToUpper(line[0]) else line[0]] + UpperCase(line[1..], s, c)
  }

  // Strings and character constants are closed; on a line where they are not
  // the original tries again for ever.
  predicate Closed(line: string, inString: bool, inChar: bool) {
    if line == "" then !inString && !inChar
    else
      var s := if !inChar && line[0] == '"' then !inString else inString;
      Closed(line[1..], s, if !s && line[0] == '\'' then !inChar else inChar)
  }

  predicate StripsCleanly(line: string) {
    Closed(DropSpaces(RemarkLess(line, false)), false, false)
  }

  // What a line becomes before it is parsed.
  function Stripped(line: string): (r: string)
    ensures r != "" ==> !IsSpace(r[0])
  {
    var text := DropSpaces(RemarkLess(line, false));
    StripStart(text);
    DropTrailing(UpperCase(text, false, false))
  }

  lemma StripStart(text: string)
    requires text == "" || !IsSpace(text[0])
    ensures var r := DropTrailing(UpperCase(text, false, false)); r != "" ==> !IsSpace(r[0])
  {
    if text != "" {
      TrailingPrefix(UpperCase(text, false, false));
    }
  }

  lemma TrailingPrefix(line: string)
    ensures DropTrailing(line) <= line
  {
  }

  function SkipWord(line: string, n: nat): (r: nat)
    requires n <= |line|
    ensures n <= r <= |line|
    decreases |line| - n
  {
    if n < |line| && !IsSpace(line[n]) then SkipWord(line, n + 1) else n
  }

  function SkipSpaces(line: string, n: nat): (r: nat)
    requires n <= |line|
    ensures n <= r <= |line|
    ensures r < |line| ==> !IsSpace(line[r])
    decreases |line| - n
  {
    if n < |line| && IsSpace(line[n]) then SkipSpaces(line, n + 1) else n
  }

  // How many characters there are from i on before the separator or the end of
  // the line, counting no further than max.
  function WordLength(line: string, i: nat, separator: char, max: nat): (n: nat)
    requires i <= |line|
    ensures n <= max && i + n <= |line|
    ensures forall k :: i <= k < i + n ==> line[k] != separator
    ensures n < max && i + n < |line| ==> line[i + n] == separator
    decreases max
  {
    if max == 0 || i == |line| || line[i] == separator then 0 else 1 + WordLength(line, i + 1, separator, max - 1)
  }

  // get_word: a word that does not fit comes back empty.
  function GetWord(line: string, i: nat, separator: char, max: nat): string
    requires i <= |line|
  {
    var n := WordLength(line, i, separator, max);
    if n == max then "" else line[i..i + n]
  }

  function WordAt(line: string, i: nat): string
    requires i <= |line|
  {
    GetWord(line, i, ' ', MAX_WORD_SIZE)
  }

  function LengthAt(line: string, i: nat): (n: nat)
    requires i <= |line|
    ensures i + n <= |line| && n <= MAX_WORD_SIZE
  {
    WordLength(line, i, ' ', MAX_WORD_SIZE)
  }

  datatype Line =
    | Blank
    | Label(name: string)
    | LongLabel
    | Str(body: string)
    | Bytes(words: seq<string>)
    | Def(symbol: string, number: string)
    | BadDef
    | Org(number: string)
    | Align(unit: nat)
    | Stub
    | Wrong
    | Code(words: seq<string>)
    | Skipped

  // A colon before the first white space.
  predicate IsLabel(line: string) {
    line != "" && (line[0] == ':' || (!IsSpace(line[0]) && IsLabel(line[1..])))
  }

  // The values after .B, up to the end of the line.
  function Values(line: string, i: nat): (r: seq<string>)
    requires i <= |line|
    decreases |line| - i
  {
    var n := LengthAt(line, i);
    if n == 0 then [] else [WordAt(line, i)] + Values(line, SkipSpaces(line, i + n))
  }

  // The string after .STR, up to the closing quote or the end of the line.
  function Quoted(line: string, i: nat): string
    requires i <= |line|
    decreases |line| - i
  {
    if i == |line| || line[i] == '"' then "" else [line[i]] + Quoted(line, i + 1)
  }

  function ParseStr(line: string): Line {
    if |line| <= 4 then Wrong
    else
      var i := SkipSpaces(line, 4);
      if i < |line| && line[i] == '"' then Str(Quoted(line, i + 1)) else Wrong
  }

  // Where the operands of a directive start.
  function Operands(line: string): (i: nat)
    ensures i <= |line|
  {
    SkipSpaces(line, SkipWord(line, 0))
  }

  function ParseBytes(line: string): Line {
    var ws := Values(line, Operands(line));
    if ws == [] then Wrong else Bytes(ws)
  }

  function ParseDef(line: string): Line {
    var i := Operands(line);
    var n := LengthAt(line, i);
    if n == 0 || n >= MAX_SYMBOL_SIZE then BadDef
    else
      var j := SkipSpaces(line, SkipWord(line, i));
      var k := LengthAt(line, j);
      if k == 0 || k == MAX_WORD_SIZE then BadDef else Def(WordAt(line, i), WordAt(line, j))
  }

  function ParseOrg(line: string): Line {
    var i := Operands(line);
    if LengthAt(line, i) == 0 then Wrong else Org(WordAt(line, i))
  }

  function ParseAlign(line: string): Line {
    var i := Operands(line);
    if i < |line| && line[i] == 'W' then Align(2)
    else if i < |line| && line[i] == 'L' then Align(4)
    else Wrong
  }

  function ParseDirective(line: string): Line {
    var name := WordAt(line, 0);
    if LengthAt(line, 0) == MAX_WORD_SIZE then Wrong
    else if name == ".STR" then ParseStr(line)
    else if name == ".B" then ParseBytes(line)
    else if name == ".W" || name == ".L" then Stub
    else if name == ".ALIGN" then ParseAlign(line)
    else if name == ".ORG" then ParseOrg(line)
    else if name == ".DEF" then ParseDef(line)
    else Wrong
  }

  // parse_line_into_words: at most six words, none of them too long.
  function Words(line: string, i: nat, k: nat): (r: (seq<string>, bool))
    requires i < |line| && !IsSpace(line[i])
    ensures r.1 ==> r.0 != []
    decreases |line| - i
  {
    var n := LengthAt(line, i);
    if n == MAX_WORD_SIZE then ([], false)
    else
      var j := SkipSpaces(line, i + n);
      var w := WordAt(line, i);
      if j == |line| then ([w], true)
      else if k + 1 == MAX_WORDS then ([w], false)
      else
        var (ws, ok) := Words(line, j, k + 1);
        ([w] + ws, ok)
  }

  function ParseCode(line: string): Line
    requires line != "" && !IsSpace(line[0])
  {
    var (ws, ok) := Words(line, 0, 0);
    if ok then Code(ws) else Skipped
  }

  // A stripped line.
  function Parse(line: string): (r: Line)
    requires line != "" ==> !IsSpace(line[0])
    ensures r.Code? ==> r.words != []
    ensures r.Align? ==> r.unit == 2 || r.unit == 4
  {
    if IsLabel(line) then
      if WordLength(line, 0, ':', MAX_SYMBOL_SIZE) < MAX_SYMBOL_SIZE
      then Label(GetWord(line, 0, ':', MAX_SYMBOL_SIZE)) else LongLabel
    else if line != "" && line[0] == '.' then ParseDirective(line)
    else if line != "" then ParseCode(line)
    else Blank
  }
}
