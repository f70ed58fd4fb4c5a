/**
  The report line the importer is written for, `10/06/24 Corte padrão dinheiro R$30,00`,
  read step by step: the date token, the payment keyword, the name before it and the price
  after it.
*/
module ImportExample {
  import opened Wrappers
  import opened Text
  import opened Dates
  import opened Domain
  import opened ImportParser

  const Token: string := "10/06/24"
  const Name: string := "Corte padrão"
  const Amount: string := "30,00"
  /** What follows the keyword. */
  const PriceText: string := " R$" + Amount
  /** The line after the date token, trimmed. */
  const Rest: string := Name + " " + CashKeyword + PriceText
  const Line: string := Token + " " + Rest

  /** Every character of an occurrence matches the pattern. */
  lemma OccursChars(s: string, p: string, j: int, k: nat)
    requires OccursAt(s, p, j) && k < |p|
    ensures s[j + k] == p[k]
  {
    assert s[j..j + |p|][k] == s[j + k];
  }

  /** No occurrence of `p` starts at or after `i` when its `k`-th character is missing
      from `s` from `i + k` on. */
  lemma NoOccurrenceFrom(s: string, p: string, i: nat, k: nat)
    requires k < |p| && forall m :: i + k <= m < |s| ==> s[m] != p[k]
    ensures forall j :: i <= j ==> !OccursAt(s, p, j)
  {
    forall j | i <= j
      ensures !OccursAt(s, p, j)
    {
      if OccursAt(s, p, j) {
        OccursChars(s, p, j, k);
      }
    }
  }

  /** A slice inside the first part of a concatenation. */
  lemma SliceOfFirst(a: string, b: string, i: nat, j: nat)
    requires i <= j <= |a|
    ensures (a + b)[i..j] == a[i..j]
  {
  }

  lemma LineShape()
    ensures |Token| == 8 && |Name| == 12 && |CashKeyword| == 8 && |Amount| == 5
    ensures |Rest| == 29 && |Line| == 38
    ensures Line == Token + (" " + Rest)
    ensures Line[8..] == " " + Rest
  {
    assert Line == Token + (" " + Rest);
  }

  lemma LineTrimmed()
    ensures Trim(Line) == Line && HasDateToken(Line) && Utf16Length(Line) >= 10
  {
    LineShape();
    assert Line[0] == Token[0] && Line[1] == Token[1] && Line[2] == Token[2];
    assert Line[3] == Token[3] && Line[4] == Token[4] && Line[5] == Token[5];
    assert Line[6] == Token[6] && Line[7] == Token[7] && Line[8] == ' ';
    assert Line[37] == Rest[28] == Amount[4];
    assert IsTrimmed(Line);
    TrimAround([], Line, []);
    assert [] + Line + [] == Line;
  }

  lemma RestTrimmed()
    ensures Trim(Line[8..]) == Rest
  {
    LineShape();
    assert Rest[0] == Name[0] && Rest[28] == Amount[4];
    assert IsTrimmed(Rest);
    TrimAround(" ", Rest, []);
    assert " " + Rest + [] == " " + Rest;
  }

  /** A concatenation read back at the seam. */
  lemma SliceAtSeam(a: string, b: string, c: string)
    ensures (a + b + c)[..|a|] == a
    ensures (a + b + c)[|a|..] == b + c
    ensures (a + b + c)[|a|..|a| + |b|] == b
    ensures (a + b + c)[|a| + |b|..] == c
  {
    assert a + b + c == a + (b + c);
  }

  lemma RestPieces()
    ensures Rest[..13] == Name + " "
    ensures Rest[13..] == CashKeyword + PriceText
    ensures Rest[13..21] == CashKeyword
  {
    assert Rest == (Name + " ") + CashKeyword + PriceText;
    SliceAtSeam(Name + " ", CashKeyword, PriceText);
  }

  /** No `o`, the keyword's last letter, follows the keyword. */
  lemma AfterKeywordNoO()
    ensures forall m :: 21 <= m < |Rest| ==> Rest[m] != CashKeyword[7]
  {
    RestPieces();
    SliceAtSeam(Name + " ", CashKeyword, PriceText);
    assert Rest[21..] == PriceText && CashKeyword[7] == 'o' && 'o' !in PriceText;
    forall m | 21 <= m < |Rest|
      ensures Rest[m] != 'o'
    {
      assert Rest[m] == PriceText[m - 21];
    }
  }

  lemma RestMethod()
    ensures ChooseMethod(Rest) == Some((Dinheiro, 13))
  {
    RestPieces();
    assert OccursAt(Rest, CashKeyword, 13);
    AfterKeywordNoO();
    NoOccurrenceFrom(Rest, CashKeyword, 14, 7);
    assert Rest == (Name + " ") + CashKeyword + PriceText;
    assert OnlineKeyword[12] == 'l' && 'l' !in Rest;
    NoOccurrenceFrom(Rest, OnlineKeyword, 0, 12);
  }

  lemma RestName()
    ensures Trim(Rest[..13]) == Name
  {
    RestPieces();
    assert IsTrimmed(Name);
    TrimAround([], Name, " ");
    assert [] + Name + " " == Name + " ";
  }

  /** The text from the keyword on, as the price lemma takes it apart. */
  lemma PartShape()
    ensures Trim(CashKeyword + PriceText) == CashKeyword + PriceText
    ensures CashKeyword + PriceText == (CashKeyword + " ") + "R$" + [] + ("30" + [','] + "00") + []
    ensures '$' !in CashKeyword + " "
  {
    var part := CashKeyword + PriceText;
    assert part[0] == 'd' && part[|part| - 1] == '0';
    TrimAround([], part, []);
    assert [] + part + [] == part;
  }

  lemma AmountValue()
    ensures AllDigits("30") && AllDigits("00") && DecimalValue("30", "00") == 30.0
  {
    assert "30"[..1] == "3" && "00"[..1] == "0";
    assert DigitsValue("3") == 3 && DigitsValue("0") == 0;
    assert DigitsValue("30") == 30 && DigitsValue("00") == 0;
    assert Pow10(2) == 100;
  }

  lemma RestPrice()
    ensures PriceAfter(Trim(Rest[13..])) == Some(30.0)
  {
    RestPieces();
    PartShape();
    var pre := CashKeyword + " ";
    PriceAfterComma(pre, [], "30", "00", []);
    AmountValue();
  }

  lemma TokenDate(resolveYear: nat -> nat)
    requires resolveYear(24) == 2024
    ensures ReadDateToken(Line, resolveYear) == Some(CivilDate(2024, 6, 10))
  {
    LineTrimmed();
    LineShape();
    SliceOfFirst(Token, " " + Rest, 0, 2);
    SliceOfFirst(Token, " " + Rest, 3, 5);
    SliceOfFirst(Token, " " + Rest, 6, 8);
    assert Line[0..2] == "10" && Line[3..5] == "06" && Line[6..8] == "24";
    assert DigitsValue("10") == 10 && DigitsValue("06") == 6 && DigitsValue("24") == 24;
  }

  lemma Written()
    ensures FormatIso(CivilDate(2024, 6, 10)) == "2024-06-10"
  {
  }

  /** The line becomes one record: the name before the keyword, the cash method, the price
      30 read from "30,00", and the token's date written "yyyy-MM-dd". */
  lemma LineParses(resolveYear: nat -> nat)
    requires resolveYear(24) == 2024
    ensures ParseLine(Line, resolveYear) == Parsed(ServiceData(Name, 30.0, Dinheiro, "2024-06-10"))
  {
    LineTrimmed();
    RestTrimmed();
    RestMethod();
    RestName();
    RestPrice();
    TokenDate(resolveYear);
    Written();
  }

  /** The pieces spell the line as a report prints it. */
  lemma RestText()
    ensures Rest == "Corte padrão dinheiro R$30,00"
  {
  }

  lemma LineText()
    ensures Line == "10/06/24 Corte padrão dinheiro R$30,00"
  {
    RestText();
    assert "10/06/24 Corte padrão dinheiro R$30,00" == Token + " " + "Corte padrão dinheiro R$30,00";
  }
}
