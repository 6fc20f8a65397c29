/** `Localizable.daysCount(_:)`: "<count> <noun>" with the noun in the form
    the language's plural rules ask for. The current locale's language code
    is the parameter `language` (`None` when the locale has none).

    Swift's `%` truncates toward zero, so for a negative count both remainders
    are at most zero and only the last, catch-all Russian case can apply.

    Two versions of the Russian noun are modelled: `RussianNounAsWritten`, the
    switch as it stands, whose first case `(1, 11...)` catches every last
    digit 1 with a last-two-digits value of 11 or more (21, 31, ..., 91); and
    `RussianNoun`, the intended rule where only 11 takes "дней". */
module Localization {
  import opened Common

  const English: string := "en"
  const Russian: string := "ru"

  /** `Locale.current.language.languageCode?.identifier ?? "en"`. */
  function LanguageOrDefault(language: Option<string>): (code: string)
    ensures language.None? ==> code == English
    ensures language.Some? ==> code == language.value
  {
    match language
    case Some(c) => c
    case None => English
  }

  /** The English branch: `case 1` and `default`. */
  function EnglishNoun(count: int): string
  {
    if count == 1 then "day" else "days"
  }

  /** The Russian branch as written. */
  function RussianNounAsWritten(count: int): string
  {
    var lastDigit := TruncRem(count, 10);
    var lastTwoDigits := TruncRem(count, 100);
    if lastDigit == 1 && lastTwoDigits >= 11 then "дней"
    else if lastDigit == 1 then "день"
    else if 2 <= lastDigit <= 4 && 12 <= lastTwoDigits <= 14 then "дней"
    else if 2 <= lastDigit <= 4 then "дня"
    else "дней"
  }

  /** The Russian branch with its first case narrowed to `(1, 11)`. */
  function RussianNoun(count: int): string
  {
    var lastDigit := TruncRem(count, 10);
    var lastTwoDigits := TruncRem(count, 100);
    if lastDigit == 1 && lastTwoDigits == 11 then "дней"
    else if lastDigit == 1 then "день"
    else if 2 <= lastDigit <= 4 && 12 <= lastTwoDigits <= 14 then "дней"
    else if 2 <= lastDigit <= 4 then "дня"
    else "дней"
  }

  /** `daysCount` as written. */
  function DaysCountAsWritten(language: Option<string>, count: int): string
  {
    var noun := if LanguageOrDefault(language) == Russian then RussianNounAsWritten(count) else EnglishNoun(count);
    IntToDecimal(count) + " " + noun
  }

  /** `daysCount` with the intended Russian rule. */
  function DaysCount(language: Option<string>, count: int): string
  {
    var noun := if LanguageOrDefault(language) == Russian then RussianNoun(count) else EnglishNoun(count);
    IntToDecimal(count) + " " + noun
  }

  /** Every result is the decimal rendering of `count`, a space, and one of
      the language's noun forms. */
  lemma DaysCountShape(language: Option<string>, count: int)
    ensures var prefix := IntToDecimal(count) + " ";
      && DaysCountAsWritten(language, count)[..|prefix|] == prefix
      && DaysCount(language, count)[..|prefix|] == prefix
    ensures LanguageOrDefault(language) == Russian ==>
      && DaysCountAsWritten(language, count)[|IntToDecimal(count)| + 1..] in {"день", "дня", "дней"}
      && DaysCount(language, count)[|IntToDecimal(count)| + 1..] in {"день", "дня", "дней"}
    ensures LanguageOrDefault(language) != Russian ==>
      DaysCountAsWritten(language, count) == DaysCount(language, count)
  {
  }

  /** Outside Russian (a missing code counts as English) the noun is "day"
      exactly when the count is 1. */
  lemma EnglishForms(language: Option<string>, count: int)
    requires LanguageOrDefault(language) != Russian
    ensures DaysCount(language, count) == IntToDecimal(count) + (if count == 1 then " day" else " days")
    ensures language.None? ==> DaysCount(language, count) == DaysCount(Some(English), count)
  {
  }

  /** The Russian switch as written, case by case. */
  lemma RussianCasesAsWritten(count: int)
    ensures count % 10 == 1 && count % 100 >= 11 ==> RussianNounAsWritten(count) == "дней"
    ensures count >= 0 ==> (RussianNounAsWritten(count) == "день" <==> count % 100 == 1)
    ensures count >= 0 ==>
      (RussianNounAsWritten(count) == "дня" <==> 2 <= count % 10 <= 4 && !(12 <= count % 100 <= 14))
    ensures count < 0 ==> RussianNounAsWritten(count) == "дней"
  {
    TruncRemDigits(count);
  }

  /** The two remainders the switch reads: for a nonnegative count Swift's
      remainders are Dafny's, and the last digit is the last digit of the
      last two. */
  lemma TruncRemDigits(count: int)
    ensures count >= 0 ==> TruncRem(count, 10) == count % 10 && TruncRem(count, 100) == count % 100
    ensures count >= 0 ==> count % 10 == (count % 100) % 10
    ensures count < 0 ==> TruncRem(count, 10) <= 0 && TruncRem(count, 100) <= 0
  {
    if count >= 0 {
      var q := count / 100;
      assert count == 100 * q + count % 100;
      assert count == 10 * (10 * q + (count % 100) / 10) + (count % 100) % 10;
    }
  }

  /** The intended rule: for a nonnegative count the noun depends on the last
      two digits alone; 11 to 19 take "дней"; any other count takes the noun
      of its last digit. */
  lemma RussianNounIntended(count: int)
    requires count >= 0
    ensures RussianNoun(count) == RussianNoun(count % 100)
    ensures 11 <= count % 100 <= 19 ==> RussianNoun(count) == "дней"
    ensures !(11 <= count % 100 <= 19) ==> RussianNoun(count) == RussianNoun(count % 10)
    ensures RussianNoun(count) == "день" <==> count % 10 == 1 && count % 100 != 11
  {
    TruncRemDigits(count);
    TruncRemDigits(count % 100);
    TruncRemDigits(count % 10);
  }

  /** The two versions differ exactly on the counts ending in 21, 31, ...,
      91: as written those take "дней" where Russian uses "день". */
  lemma AsWrittenDiffersFromIntended(count: int)
    ensures RussianNounAsWritten(count) != RussianNoun(count) <==>
      TruncRem(count, 10) == 1 && TruncRem(count, 100) >= 21
  {
  }

  /** 21 is rendered "21 дней"; Russian uses "21 день". */
  lemma TwentyOneAsWritten()
    ensures DaysCountAsWritten(Some(Russian), 21) == "21 дней"
    ensures DaysCount(Some(Russian), 21) == "21 день"
  {
    assert NatToDecimal(2) == "2";
    assert NatToDecimal(21) == NatToDecimal(2) + [DigitChar(1)] == "21";
  }
}
