// Which lines are errors: what the two passes of the assembler accept.
module AsmErrors {
  import opened Dataspace
  import opened AsmNumbers
  import opened AsmCode
  import opened AsmText
  import opened AsmPasses

  // A number with a value between lo and hi, and no minus sign unless lo is below 0.
  ghost predicate NumberWithin(word: string, t: seq<Symbol>, lo: int, hi: int) {
    match ReadNumber(word, t)
    case Number(v, negative) => lo <= v <= hi && (lo >= 0 ==> !negative)
    case _ => false
  }

  ghost predicate FitsByte(word: string, t: seq<Symbol>) {
    match ReadNumber(word, t)
    case Number(v, negative) => if negative then -128 <= v <= 127 else 0 <= v <= 255
    case _ => false
  }

  // .B is accepted exactly when every word is a number that fits a byte, signed or
  // unsigned.
  lemma {:induction false} BytesAccepted(words: seq<string>, t: seq<Symbol>)
    ensures EmitBytes(words, t).2 <==> forall j :: 0 <= j < |words| ==> FitsByte(words[j], t)
    decreases |words|
  {
    hide ReadNumber;
    if words != [] {
      BytesAccepted(words[1..], t);
      assert forall j :: 0 < j < |words| ==> words[j] == words[1..][j - 1];
      assert FitsByte(words[0], t) <==> ByteValue(words[0], t).Value?;
      if forall j :: 0 <= j < |words| ==> FitsByte(words[j], t) {
        assert FitsByte(words[0], t);
        assert forall j :: 0 <= j < |words| - 1 ==> words[1..][j] == words[j + 1];
      }
    }
  }

  predicate IsSizedName(name: string) {
    name in {"RD", "IRD", "STO", "ISTO"}
  }

  predicate IsStackName(name: string) {
    name in {"DROP", "DUP", "SWAP", "MOV"}
  }

  // The mnemonics with operands of their own are in no table.
  lemma OperandNames(name: string)
    ensures name in {"LD", "LDL", "LDH", "ENTER", "BIF"} ==>
              PlainCode(name) == SizedCode(name) == StackCode(name) == Missing
  {
    hide PlainCode, SizedCode, StackCode;
    if name in {"LD", "LDL", "LDH", "ENTER", "BIF"} {
      NotPlain(name);
      OtherTables(name);
    }
  }

  lemma NotPlain(name: string)
    requires name in {"LD", "LDL", "LDH", "ENTER", "BIF"}
    ensures PlainCode(name) == Missing
  {
  }

  lemma OtherTables(name: string)
    requires name in {"LD", "LDL", "LDH", "ENTER", "BIF"}
    ensures SizedCode(name) == StackCode(name) == Missing
  {
  }

  lemma SizedNotPlain(name: string)
    requires IsSizedName(name)
    ensures PlainCode(name) == Missing
  {
  }

  lemma PlainMissing(name: string)
    requires IsStackName(name)
    ensures PlainCode(name) == Missing
  {
  }

  predicate NamesStack(word: string) {
    word in {"D", "C", "R", "T"}
  }

  // The operands with which an instruction is accepted.
  ghost predicate OperandsOk(words: seq<string>, t: seq<Symbol>)
    requires words != []
  {
    var name := words[0];
    if name == "LD" then |words| > 2 && NamesStack(words[1]) && ReadNumber(words[2], t).Number?
    else if name == "LDL" then |words| > 2 && NamesStack(words[1]) && NumberWithin(words[2], t, 0, 1023)
    else if name == "LDH" then |words| > 2 && NamesStack(words[1]) && NumberWithin(words[2], t, 0, 63)
    else if name == "BIF" then |words| > 1 && FindSymbol(t, words[1]).Value?
    else if name == "ENTER" then
      |words| > 1 && FindSymbol(t, words[1]).Value? && FindSymbol(t, words[1]).value % 4 == 0
    else if IsSizedName(name) then |words| > 1 && words[1] != "" && words[1][0] in {'B', 'W', 'L'}
    else if IsStackName(name) then |words| > 1
    else true
  }

  // An instruction is accepted exactly with these, wherever it stands.
  lemma OperandsAccepted(words: seq<string>, address: cell, t: seq<Symbol>)
    requires words != [] && ByteCount(words[0]) > 0
    ensures Generate(words, address, t).ok <==> OperandsOk(words, t)
  {
    hide ReadNumber, FindSymbol, Or16, WithStack;
    if |words| > 1 { Letter(words[1]); }
    Tables(words[0]);
    hide PlainCode, SizedCode, StackCode, ByteCount;
  }

  lemma Letter(word: string)
    ensures NamesStack(word) <==> |word| <= 1 && StackId(FirstChar(word)) != NO_STACK
  {
    if |word| == 1 { assert word == [word[0]]; }
  }

  // Every mnemonic is in one table, or has a generator of its own.
  lemma Tables(name: string)
    ensures SizedCode(name).Value? <==> IsSizedName(name)
    ensures StackCode(name).Value? <==> IsStackName(name)
    ensures ByteCount(name) > 0 <==>
              || name in {"LD", "LDL", "LDH", "BIF", "ENTER"} || PlainCode(name).Value? || SizedCode(name).Value?
              || StackCode(name).Value?
    ensures PlainCode(name).Value? ==> SizedCode(name) == Missing && StackCode(name) == Missing
    ensures name in {"LD", "LDL", "LDH", "BIF", "ENTER"} ==> PlainCode(name) == Missing
  {
    if IsSizedName(name) { SizedNotPlain(name); }
    else if IsStackName(name) { PlainMissing(name); }
    else if name in {"LD", "LDL", "LDH", "ENTER", "BIF"} { NotPlain(name); }
    hide PlainCode;
  }

  // The first pass accepts a line exactly when what it defines has a value and room in
  // the table, and its mnemonic is known.
  lemma ScanAccepts(s: Scanned, line: Line)
    requires LineOk(line) && s.ok
    ensures Scan(s, line).ok <==>
              match line
              case Label(_) => |s.table| < 1024
              case Def(_, number) => |s.table| < 1024 && NumberWithin(number, s.table, -32768, 65535)
              case Org(number) => NumberWithin(number, s.table, 0, 65535)
              case Code(words) => ByteCount(words[0]) > 0
              case LongLabel => false
              case BadDef => false
              case Wrong => false
              case _ => true
  {
    hide ReadNumber, ByteCount;
  }
}
