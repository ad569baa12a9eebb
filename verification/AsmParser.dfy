// Reading a source line the way the program does, with index loops over the
// characters: each loop is proved to compute what AsmText says the line means.
module AsmParser {
  import opened AsmNumbers
  import opened AsmText

  lemma RestStep(line: string, i: nat)
    requires i < |line|
    ensures line[i..] != "" && line[i..][0] == line[i] && line[i..][1..] == line[i + 1..]
  {
  }

  // remove_remarks.
  method StripRemarks(line: string) returns (r: string)
    ensures r == RemarkLess(line, false)
  {
    r := "";
    var quoted := false;
    var i := 0;
    assert line[0..] == line;
    while i < |line|
      invariant 0 <= i <= |line| && r + RemarkLess(line[i..], quoted) == RemarkLess(line, false)
    {
      RestStep(line, i);
      var c := line[i];
      if quoted {
        if c == '"' {
          quoted := false;
        }
      } else {
        if c == ';' {
          return;
        }
        if c == '"' {
          quoted := true;
        }
      }
      r := r + [c];
      i := i + 1;
    }
  }

  // The leading-space loop of strip_line.
  method SkipLeading(line: string) returns (i: nat)
    ensures i <= |line| && line[i..] == DropSpaces(line)
  {
    i := 0;
    assert line[0..] == line;
    while i < |line| && IsSpace(line[i])
      invariant 0 <= i <= |line| && DropSpaces(line[i..]) == DropSpaces(line)
    {
      RestStep(line, i);
      i := i + 1;
    }
    if i < |line| { RestStep(line, i); }
  }

  lemma QuoteStep(line: string, i: nat, inString: bool, inChar: bool)
    requires i < |line|
    ensures var s := if !inChar && line[i] == '"' then !inString else inString;
            var c := if !s && line[i] == '\'' then !inChar else inChar;
            && Closed(line[i..], inString, inChar) == Closed(line[i + 1..], s, c)
            && UpperCase(line[i..], inString, inChar) ==
               [if !s && !c then ToUpper(line[i]) else line[i]] + UpperCase(line[i + 1..], s, c)
  {
    RestStep(line, i);
  }

  lemma NoMore(inString: bool, inChar: bool)
    ensures UpperCase("", inString, inChar) == "" && Closed("", inString, inChar) == (!inString && !inChar)
  {
  }

  // strip_line: upper case outside quotes, no white space at either end.
  method Strip(line: string) returns (r: string, ok: bool)
    ensures ok == Closed(DropSpaces(line), false, false)
    ensures r == DropTrailing(UpperCase(DropSpaces(line), false, false))
  {
    hide DropSpaces, DropTrailing, IsSpace, ToUpper, UpperCase, Closed;
    var i := SkipLeading(line);
    var inString, inChar := false, false;
    r := "";
    ghost var text := line[i..];
    while i < |line|
      invariant 0 <= i <= |line|
      invariant r + UpperCase(line[i..], inString, inChar) == UpperCase(text, false, false)
      invariant Closed(line[i..], inString, inChar) == Closed(text, false, false)
    {
      QuoteStep(line, i, inString, inChar);
      if !inChar {
        if line[i] == '"' {
          inString := !inString;
        }
      }
      if !inString {
        if line[i] == '\'' {
          inChar := !inChar;
        }
      }
      if !inString && !inChar {
        r := r + [ToUpper(line[i])];
      } else {
        r := r + [line[i]];
      }
      i := i + 1;
    }
    assert line[i..] == "" && r == UpperCase(text, false, false) by { NoMore(inString, inChar); }
    NoMore(inString, inChar);
    r := StripTrailing(r);
    ok := !inString && !inChar;
  }

  // The trailing-space loop of strip_line.
  method StripTrailing(line: string) returns (r: string)
    ensures r == DropTrailing(line)
  {
    r := line;
    while r != "" && IsSpace(r[|r| - 1])
      invariant DropTrailing(r) == DropTrailing(line)
      decreases |r|
    {
      r := r[..|r| - 1];
    }
  }

  method WordEnd(line: string, n: nat) returns (i: nat)
    requires n <= |line|
    ensures i == SkipWord(line, n)
  {
    i := n;
    while i < |line| && !IsSpace(line[i])
      invariant n <= i <= |line| && SkipWord(line, i) == SkipWord(line, n)
    {
      i := i + 1;
    }
  }

  method SpacesEnd(line: string, n: nat) returns (i: nat)
    requires n <= |line|
    ensures i == SkipSpaces(line, n)
  {
    i := n;
    while i < |line| && IsSpace(line[i])
      invariant n <= i <= |line| && SkipSpaces(line, i) == SkipSpaces(line, n)
    {
      i := i + 1;
    }
  }

  // get_word: the word and how many characters it took; an empty word and the
  // maximum when it does not fit.
  method TakeWord(line: string, start: nat, separator: char, max: nat) returns (word: string, n: nat)
    requires start <= |line|
    ensures n == WordLength(line, start, separator, max) && word == GetWord(line, start, separator, max)
  {
    word := "";
    n := 0;
    while n < max && start + n < |line| && line[start + n] != separator
      invariant 0 <= n <= max && start + n <= |line| && word == line[start..start + n]
      invariant WordLength(line, start, separator, max) == n + WordLength(line, start + n, separator, max - n)
    {
      word := word + [line[start + n]];
      n := n + 1;
    }
    if n == max {
      word := "";
    }
  }

  // is_label.
  method FindColon(line: string) returns (found: bool)
    ensures found == IsLabel(line)
  {
    found := false;
    var i := 0;
    assert line[0..] == line;
    while i < |line|
      invariant 0 <= i <= |line| && (if found then IsLabel(line) else IsLabel(line[i..]) == IsLabel(line))
    {
      RestStep(line, i);
      if line[i] == ':' {
        found := true;
      } else if IsSpace(line[i]) {
        break;
      }
      i := i + 1;
    }
  }

  lemma WordPositive(line: string, i: nat)
    requires i < |line| && !IsSpace(line[i])
    ensures LengthAt(line, i) > 0
  {
  }

  lemma WordsStep(line: string, i: nat, k: nat)
    requires i < |line| && !IsSpace(line[i])
    ensures var j := SkipSpaces(line, i + LengthAt(line, i));
            if LengthAt(line, i) == MAX_WORD_SIZE then !Words(line, i, k).1
            else if j == |line| then Words(line, i, k) == ([WordAt(line, i)], true)
            else if k + 1 == MAX_WORDS then !Words(line, i, k).1
            else Words(line, i, k).1 == Words(line, j, k + 1).1
                 && Words(line, i, k).0 == [WordAt(line, i)] + Words(line, j, k + 1).0
  {
    hide WordLength, GetWord, SkipSpaces, IsSpace;
  }

  // parse_line_into_words.
  method SplitWords(line: string) returns (words: seq<string>, ok: bool)
    requires line != "" && !IsSpace(line[0])
    ensures ok == Words(line, 0, 0).1
    ensures ok ==> words == Words(line, 0, 0).0
  {
    hide WordLength, GetWord, SkipSpaces, IsSpace, Words;
    words := [];
    var i := 0;
    var k := 0;
    while true
      invariant 0 <= i < |line| && !IsSpace(line[i]) && 0 <= k < MAX_WORDS
      invariant Words(line, 0, 0).1 == Words(line, i, k).1
      invariant words + Words(line, i, k).0 == Words(line, 0, 0).0
      decreases |line| - i
    {
      WordPositive(line, i);
      WordsStep(line, i, k);
      var word, n := TakeWord(line, i, ' ', MAX_WORD_SIZE);
      if n == MAX_WORD_SIZE {
        return words, false;
      }
      words := words + [word];
      k := k + 1;
      i := SpacesEnd(line, i + n);
      if i == |line| {
        return words, true;
      }
      if k == MAX_WORDS {
        return words, false;
      }
    }
  }

  // The loop of .B over the values on the line.
  method ReadValues(line: string, start: nat) returns (words: seq<string>)
    requires start <= |line|
    ensures words == Values(line, start)
  {
    hide WordLength, GetWord, SkipSpaces;
    words := [];
    var i: nat := start;
    var word, n := TakeWord(line, i, ' ', MAX_WORD_SIZE);
    while n > 0
      invariant start <= i <= |line| && i + n <= |line| && n == LengthAt(line, i) && word == WordAt(line, i)
      invariant words + Values(line, i) == Values(line, start)
      decreases |line| - i
    {
      words := words + [word];
      i := SpacesEnd(line, i + n);
      word, n := TakeWord(line, i, ' ', MAX_WORD_SIZE);
    }
  }

  // .STR: the characters between the quotes.
  method ReadStr(line: string) returns (r: Line)
    ensures r == ParseStr(line)
  {
    if |line| <= 4 {
      return Wrong;
    }
    var i := SpacesEnd(line, 4);
    if i == |line| || line[i] != '"' {
      return Wrong;
    }
    i := i + 1;
    ghost var start := i;
    var body := "";
    while i < |line| && line[i] != '"'
      invariant start <= i <= |line| && body + Quoted(line, i) == Quoted(line, start)
    {
      body := body + [line[i]];
      i := i + 1;
    }
    return Str(body);
  }

  method FirstOperand(line: string) returns (i: nat)
    ensures i == Operands(line)
  {
    i := WordEnd(line, 0);
    i := SpacesEnd(line, i);
  }

  method ReadBytes(line: string) returns (r: Line)
    ensures r == ParseBytes(line)
  {
    var i := FirstOperand(line);
    var words := ReadValues(line, i);
    r := if words == [] then Wrong else Bytes(words);
  }

  method ReadDef(line: string) returns (r: Line)
    ensures r == ParseDef(line)
  {
    var i := FirstOperand(line);
    var symbol, n := TakeWord(line, i, ' ', MAX_SYMBOL_SIZE);
    if n == 0 || n >= MAX_SYMBOL_SIZE {
      return BadDef;
    }
    i := WordEnd(line, i);
    i := SpacesEnd(line, i);
    var number;
    number, n := TakeWord(line, i, ' ', MAX_WORD_SIZE);
    r := if n == 0 || n == MAX_WORD_SIZE then BadDef else Def(symbol, number);
  }

  method ReadOrg(line: string) returns (r: Line)
    ensures r == ParseOrg(line)
  {
    var i := FirstOperand(line);
    var number, n := TakeWord(line, i, ' ', MAX_WORD_SIZE);
    r := if n == 0 then Wrong else Org(number);
  }

  method ReadAlign(line: string) returns (r: Line)
    ensures r == ParseAlign(line)
  {
    var i := FirstOperand(line);
    if i < |line| && line[i] == 'W' {
      r := Align(2);
    } else if i < |line| && line[i] == 'L' {
      r := Align(4);
    } else {
      r := Wrong;
    }
  }

  method ReadDirective(line: string) returns (r: Line)
    ensures r == ParseDirective(line)
  {
    hide ParseStr, ParseBytes, ParseAlign, ParseOrg, ParseDef;
    var name, n := TakeWord(line, 0, ' ', MAX_WORD_SIZE);
    if n == MAX_WORD_SIZE {
      r := Wrong;
    } else if name == ".STR" {
      r := ReadStr(line);
    } else if name == ".B" {
      r := ReadBytes(line);
    } else if name == ".W" || name == ".L" {
      r := Stub;
    } else if name == ".ALIGN" {
      r := ReadAlign(line);
    } else if name == ".ORG" {
      r := ReadOrg(line);
    } else if name == ".DEF" {
      r := ReadDef(line);
    } else {
      r := Wrong;
    }
  }

  // What kind of line it is, and its operands.
  method ReadLine(line: string) returns (r: Line)
    requires line != "" ==> !IsSpace(line[0])
    ensures r == Parse(line)
  {
    hide ParseDirective, Words, IsLabel, WordLength, GetWord;
    var isLabel := FindColon(line);
    if isLabel {
      var name, n := TakeWord(line, 0, ':', MAX_SYMBOL_SIZE);
      r := if n < MAX_SYMBOL_SIZE then Label(name) else LongLabel;
    } else if line != "" && line[0] == '.' {
      r := ReadDirective(line);
    } else if line != "" {
      var words, ok := SplitWords(line);
      r := if ok then Code(words) else Skipped;
    } else {
      r := Blank;
    }
  }
}
