/**
 * The line-item classifier (`find_balance_item`, bot_full.py:183-192) and
 * the keyword table it scans (`BALANCE_ITEMS`, bot_full.py:36-64).
 */
module Classifier {
  import opened Wrappers
  import opened Text

  /**
   * `BALANCE_ITEMS`: each canonical line-item key with its keywords, in
   * declaration order. The order decides which key a label gets when the
   * keywords of several keys occur in it.
   */
  const BalanceItems: seq<(string, seq<string>)> := [
      ("внеоборотные активы", ["внеоборотные", "non-current", "основные средства", "нематериальные", "нма"]),
      ("основные средства", ["основные средства", "fixed assets", "property plant", "основной", "ося"]),
      ("нематериальные активы", ["нематериальные", "intangible", "нма"]),
      ("запасы", ["запасы", "inventories", "inventory", "товарно-материальные", "тмц"]),
      ("дебиторская задолженность", ["дебиторская", "accounts receivable", "receivables", "дебитор"]),
      ("денежные средства", ["денежные средства", "cash", "cash and equivalents", "деньги", "касса", "расчетный счет"]),
      ("оборотные активы", ["оборотные активы", "current assets", "оборотные"]),
      ("активы всего", ["активы", "актив всего", "total assets", "итого активы", "баланс актив"]),
      ("капитал", ["капитал", "собственный капитал", "equity", "share capital", "уставный"]),
      ("уставный капитал", ["уставный капитал", "authorized capital", "уставной"]),
      ("нераспределенная прибыль", ["нераспределенная прибыль", "retained earnings", "прибыль отчетного года"]),
      ("долгосрочные обязательства", ["долгосрочные обязательства", "long-term liabilities", "долгосрочные"]),
      ("краткосрочные обязательства", ["краткосрочные обязательства", "short-term liabilities", "current liabilities", "краткосрочные"]),
      ("кредиты займы", ["кредиты", "займы", "loans", "borrowings", "кредит"]),
      ("кредиторская задолженность", ["кредиторская задолженность", "accounts payable", "кредиторская"]),
      ("обязательства всего", ["обязательства", "пассив всего", "total liabilities", "итого пассивы", "баланс пассив"]),
      ("выручка", ["выручка", "revenue", "sales", "доход", "объем продаж"]),
      ("себестоимость", ["себестоимость", "cost of sales", "cost", "себестоимость продаж"]),
      ("валовая прибыль", ["валовая прибыль", "убыток", "gross profit", "прибыль валовая"]),
      ("операционные расходы", ["операционные расходы", "operating expenses", "коммерческие расходы", "управленческие расходы"]),
      ("прибыль до налогообложения", ["прибыль до налогообложения", "profit before tax", "прибыль до налога"]),
      ("чистая прибыль", ["чистая прибыль", "net profit", "net income", "прибыль чистая"])
    ]

  /** Some keyword of the list occurs in the label. */
  predicate KeyMatches(keywords: seq<string>, norm: string)
  {
    exists kw :: kw in keywords && IsSubstring(kw, norm)
  }

  /** Key `i` matches `label` and no key declared before it does. */
  ghost predicate IsFirstMatch(norm: string, i: int)
  {
    && 0 <= i < |BalanceItems|
    && KeyMatches(BalanceItems[i].1, norm)
    && forall j :: 0 <= j < i ==> !KeyMatches(BalanceItems[j].1, norm)
  }

  /** The index of the first key, from `from` on, having a keyword in `label`. */
  function FirstMatchingKey(norm: string, from: nat): (r: Option<nat>)
    ensures r.None? ==> forall j :: from <= j < |BalanceItems| ==> !KeyMatches(BalanceItems[j].1, norm)
    ensures r.Some? ==> && from <= r.value < |BalanceItems|
                        && KeyMatches(BalanceItems[r.value].1, norm)
                        && forall j :: from <= j < r.value ==> !KeyMatches(BalanceItems[j].1, norm)
    decreases |BalanceItems| - from
  {
    if from >= |BalanceItems| then None
    else if KeyMatches(BalanceItems[from].1, norm) then Some(from)
    else FirstMatchingKey(norm, from + 1)
  }

  /**
   * `find_balance_item(column_name, _)`: the first key, in declaration
   * order, one of whose keywords is a substring of the lower-cased,
   * stripped name; `None` when no keyword of any key occurs in it.
   */
  function FindBalanceItem(name: string): (r: Option<string>)
    ensures r.None? <==> forall j :: 0 <= j < |BalanceItems| ==> !KeyMatches(BalanceItems[j].1, Normalize(name))
    ensures r.Some? ==> exists i :: IsFirstMatch(Normalize(name), i) && r.value == BalanceItems[i].0
  {
    match FirstMatchingKey(Normalize(name), 0)
    case None => None
    case Some(i) => Some(BalanceItems[i].0)
  }

  /** The other direction: the first matching key is the one returned. */
  lemma FirstMatchIsReturned(name: string, i: int)
    requires IsFirstMatch(Normalize(name), i)
    ensures FindBalanceItem(name) == Some(BalanceItems[i].0)
  {
  }

  /** Every key has at least one keyword, and no keyword is empty. */
  lemma TableWellFormed()
    ensures forall i :: 0 <= i < |BalanceItems| ==> |BalanceItems[i].1| > 0
    ensures forall i, kw :: 0 <= i < |BalanceItems| && kw in BalanceItems[i].1 ==> |kw| > 0
  {
  }

  // ---------------------------------------------------------------------
  // Worked classifications. The verifier cannot search a literal label for
  // every keyword on its own. A label is summarised instead by a profile
  // (Text.Profiled: a set holding its characters and one holding its pairs of
  // neighbouring characters), and each key the label skips is ruled out by a
  // lemma naming, for each keyword of the key, a character or a pair of
  // neighbouring characters the profile lacks.

  /** No key before `hi` has a keyword occurring in `norm`. */
  ghost predicate NoKeyBefore(norm: string, hi: nat)
  {
    forall j :: 0 <= j < hi && j < |BalanceItems| ==> !KeyMatches(BalanceItems[j].1, norm)
  }

  lemma NoKeyBeforeNext(norm: string, hi: nat)
    requires NoKeyBefore(norm, hi) && hi < |BalanceItems| && !KeyMatches(BalanceItems[hi].1, norm)
    ensures NoKeyBefore(norm, hi + 1)
  {
  }

  /** Normalising a capitalised label lower-cases its first letter only. */
  lemma NormalizeCapitalised(first: char, rest: string, lowered: string)
    requires forall c :: c in rest ==> !IsUpper(c)
    requires lowered == [LowerChar(first)] + rest
    requires !IsSpace(lowered[0]) && (rest != [] ==> !IsSpace(rest[|rest| - 1]))
    ensures Normalize([first] + rest) == lowered
  {
    LowerCapitalised(first, rest);
    StripUntrimmed([LowerChar(first)] + rest);
  }

  /** A label holding a keyword of key `k`, and none of a key before it, has `k` as its first match. */
  lemma FirstMatchAt(norm: string, k: nat, before: string, kw: string, after: string)
    requires NoKeyBefore(norm, k) && k < |BalanceItems| && kw in BalanceItems[k].1 && norm == before + kw + after
    ensures IsFirstMatch(norm, k)
  {
    SubstringOfInfix(before, kw, after);
  }

  /** Key 0 ('внеоборотные активы') matches no label lacking 'е', 'n' and 'м'. */
  lemma Key0Skipped(norm: string, chars: set<char>, pairs: set<(char, char)>)
    requires Profiled(norm, chars, pairs)
    requires 'е' !in chars && 'n' !in chars && 'м' !in chars
    ensures !KeyMatches(BalanceItems[0].1, norm)
  {
    assert BalanceItems[0].1 == ["внеоборотные", "non-current", "основные средства", "нематериальные", "нма"];
    NotSubstringByProfileChar("внеоборотные", norm, chars, pairs, 'е');
    NotSubstringByProfileChar("non-current", norm, chars, pairs, 'n');
    NotSubstringByProfileChar("основные средства", norm, chars, pairs, 'е');
    NotSubstringByProfileChar("нематериальные", norm, chars, pairs, 'е');
    NotSubstringByProfileChar("нма", norm, chars, pairs, 'м');
  }

  /** Key 1 ('основные средства') matches no label lacking 'е', 'f', 'p' and the neighbours 'ос'. */
  lemma Key1Skipped(norm: string, chars: set<char>, pairs: set<(char, char)>)
    requires Profiled(norm, chars, pairs)
    requires 'е' !in chars && 'f' !in chars && 'p' !in chars && ('о', 'с') !in pairs
    ensures !KeyMatches(BalanceItems[1].1, norm)
  {
    assert BalanceItems[1].1 == ["основные средства", "fixed assets", "property plant", "основной", "ося"];
    NotSubstringByProfileChar("основные средства", norm, chars, pairs, 'е');
    NotSubstringByProfileChar("fixed assets", norm, chars, pairs, 'f');
    NotSubstringByProfileChar("property plant", norm, chars, pairs, 'p');
    NotSubstringByPair("основной", norm, chars, pairs, 0);
    NotSubstringByPair("ося", norm, chars, pairs, 0);
  }

  /** Key 2 ('нематериальные активы') matches no label lacking 'е', 'i' and 'м'. */
  lemma Key2Skipped(norm: string, chars: set<char>, pairs: set<(char, char)>)
    requires Profiled(norm, chars, pairs)
    requires 'е' !in chars && 'i' !in chars && 'м' !in chars
    ensures !KeyMatches(BalanceItems[2].1, norm)
  {
    assert BalanceItems[2].1 == ["нематериальные", "intangible", "нма"];
    NotSubstringByProfileChar("нематериальные", norm, chars, pairs, 'е');
    NotSubstringByProfileChar("intangible", norm, chars, pairs, 'i');
    NotSubstringByProfileChar("нма", norm, chars, pairs, 'м');
  }

  /** Key 3 ('запасы') matches no label lacking 'з', 'i', '-' and 'м'. */
  lemma Key3Skipped(norm: string, chars: set<char>, pairs: set<(char, char)>)
    requires Profiled(norm, chars, pairs)
    requires 'з' !in chars && 'i' !in chars && '-' !in chars && 'м' !in chars
    ensures !KeyMatches(BalanceItems[3].1, norm)
  {
    assert BalanceItems[3].1 == ["запасы", "inventories", "inventory", "товарно-материальные", "тмц"];
    NotSubstringByProfileChar("запасы", norm, chars, pairs, 'з');
    NotSubstringByProfileChar("inventories", norm, chars, pairs, 'i');
    NotSubstringByProfileChar("inventory", norm, chars, pairs, 'i');
    NotSubstringByProfileChar("товарно-материальные", norm, chars, pairs, '-');
    NotSubstringByProfileChar("тмц", norm, chars, pairs, 'м');
  }

  /** Key 4 ('дебиторская задолженность') matches no label lacking 'д', 'a' and 'r'. */
  lemma Key4Skipped(norm: string, chars: set<char>, pairs: set<(char, char)>)
    requires Profiled(norm, chars, pairs)
    requires 'д' !in chars && 'a' !in chars && 'r' !in chars
    ensures !KeyMatches(BalanceItems[4].1, norm)
  {
    assert BalanceItems[4].1 == ["дебиторская", "accounts receivable", "receivables", "дебитор"];
    NotSubstringByProfileChar("дебиторская", norm, chars, pairs, 'д');
    NotSubstringByProfileChar("accounts receivable", norm, chars, pairs, 'a');
    NotSubstringByProfileChar("receivables", norm, chars, pairs, 'r');
    NotSubstringByProfileChar("дебитор", norm, chars, pairs, 'д');
  }

  /** Key 5 ('денежные средства') matches no label lacking 'д', 'c', 'е' and the neighbours 'ас'. */
  lemma Key5Skipped(norm: string, chars: set<char>, pairs: set<(char, char)>)
    requires Profiled(norm, chars, pairs)
    requires 'д' !in chars && 'c' !in chars && 'е' !in chars && ('а', 'с') !in pairs
    ensures !KeyMatches(BalanceItems[5].1, norm)
  {
    assert BalanceItems[5].1 == ["денежные средства", "cash", "cash and equivalents", "деньги", "касса", "расчетный счет"];
    NotSubstringByProfileChar("денежные средства", norm, chars, pairs, 'д');
    NotSubstringByProfileChar("cash", norm, chars, pairs, 'c');
    NotSubstringByProfileChar("cash and equivalents", norm, chars, pairs, 'c');
    NotSubstringByProfileChar("деньги", norm, chars, pairs, 'д');
    NotSubstringByPair("касса", norm, chars, pairs, 1);
    NotSubstringByProfileChar("расчетный счет", norm, chars, pairs, 'е');
  }

  /** Key 6 ('оборотные активы') matches no label lacking 'е' and 'c'. */
  lemma Key6Skipped(norm: string, chars: set<char>, pairs: set<(char, char)>)
    requires Profiled(norm, chars, pairs)
    requires 'е' !in chars && 'c' !in chars
    ensures !KeyMatches(BalanceItems[6].1, norm)
  {
    assert BalanceItems[6].1 == ["оборотные активы", "current assets", "оборотные"];
    NotSubstringByProfileChar("оборотные активы", norm, chars, pairs, 'е');
    NotSubstringByProfileChar("current assets", norm, chars, pairs, 'c');
    NotSubstringByProfileChar("оборотные", norm, chars, pairs, 'е');
  }

  /** Key 7 ('активы всего') matches no label lacking 'е', 't', 'г', the neighbours 'ак' and the neighbours 'ба'. */
  lemma Key7Skipped(norm: string, chars: set<char>, pairs: set<(char, char)>)
    requires Profiled(norm, chars, pairs)
    requires 'е' !in chars && 't' !in chars && 'г' !in chars && ('а', 'к') !in pairs && ('б', 'а') !in pairs
    ensures !KeyMatches(BalanceItems[7].1, norm)
  {
    assert BalanceItems[7].1 == ["активы", "актив всего", "total assets", "итого активы", "баланс актив"];
    NotSubstringByPair("активы", norm, chars, pairs, 0);
    NotSubstringByProfileChar("актив всего", norm, chars, pairs, 'е');
    NotSubstringByProfileChar("total assets", norm, chars, pairs, 't');
    NotSubstringByProfileChar("итого активы", norm, chars, pairs, 'г');
    NotSubstringByPair("баланс актив", norm, chars, pairs, 0);
  }

  /** Key 8 ('капитал') matches no label lacking 'е', 'e', 's', 'н' and the neighbours 'ап'. */
  lemma Key8Skipped(norm: string, chars: set<char>, pairs: set<(char, char)>)
    requires Profiled(norm, chars, pairs)
    requires 'е' !in chars && 'e' !in chars && 's' !in chars && 'н' !in chars && ('а', 'п') !in pairs
    ensures !KeyMatches(BalanceItems[8].1, norm)
  {
    assert BalanceItems[8].1 == ["капитал", "собственный капитал", "equity", "share capital", "уставный"];
    NotSubstringByPair("капитал", norm, chars, pairs, 1);
    NotSubstringByProfileChar("собственный капитал", norm, chars, pairs, 'е');
    NotSubstringByProfileChar("equity", norm, chars, pairs, 'e');
    NotSubstringByProfileChar("share capital", norm, chars, pairs, 's');
    NotSubstringByProfileChar("уставный", norm, chars, pairs, 'н');
  }

  /** Key 9 ('уставный капитал') matches no label lacking 'н' and 'a'. */
  lemma Key9Skipped(norm: string, chars: set<char>, pairs: set<(char, char)>)
    requires Profiled(norm, chars, pairs)
    requires 'н' !in chars && 'a' !in chars
    ensures !KeyMatches(BalanceItems[9].1, norm)
  {
    assert BalanceItems[9].1 == ["уставный капитал", "authorized capital", "уставной"];
    NotSubstringByProfileChar("уставный капитал", norm, chars, pairs, 'н');
    NotSubstringByProfileChar("authorized capital", norm, chars, pairs, 'a');
    NotSubstringByProfileChar("уставной", norm, chars, pairs, 'н');
  }

  /** Key 10 ('нераспределенная прибыль') matches no label lacking 'н', 'r' and 'е'. */
  lemma Key10Skipped(norm: string, chars: set<char>, pairs: set<(char, char)>)
    requires Profiled(norm, chars, pairs)
    requires 'н' !in chars && 'r' !in chars && 'е' !in chars
    ensures !KeyMatches(BalanceItems[10].1, norm)
  {
    assert BalanceItems[10].1 == ["нераспределенная прибыль", "retained earnings", "прибыль отчетного года"];
    NotSubstringByProfileChar("нераспределенная прибыль", norm, chars, pairs, 'н');
    NotSubstringByProfileChar("retained earnings", norm, chars, pairs, 'r');
    NotSubstringByProfileChar("прибыль отчетного года", norm, chars, pairs, 'е');
  }

  /** Key 11 ('долгосрочные обязательства') matches no label lacking 'д' and 'l'. */
  lemma Key11Skipped(norm: string, chars: set<char>, pairs: set<(char, char)>)
    requires Profiled(norm, chars, pairs)
    requires 'д' !in chars && 'l' !in chars
    ensures !KeyMatches(BalanceItems[11].1, norm)
  {
    assert BalanceItems[11].1 == ["долгосрочные обязательства", "long-term liabilities", "долгосрочные"];
    NotSubstringByProfileChar("долгосрочные обязательства", norm, chars, pairs, 'д');
    NotSubstringByProfileChar("long-term liabilities", norm, chars, pairs, 'l');
    NotSubstringByProfileChar("долгосрочные", norm, chars, pairs, 'д');
  }

  /** Key 12 ('краткосрочные обязательства') matches no label lacking 'н', 's' and 'c'. */
  lemma Key12Skipped(norm: string, chars: set<char>, pairs: set<(char, char)>)
    requires Profiled(norm, chars, pairs)
    requires 'н' !in chars && 's' !in chars && 'c' !in chars
    ensures !KeyMatches(BalanceItems[12].1, norm)
  {
    assert BalanceItems[12].1 == ["краткосрочные обязательства", "short-term liabilities", "current liabilities", "краткосрочные"];
    NotSubstringByProfileChar("краткосрочные обязательства", norm, chars, pairs, 'н');
    NotSubstringByProfileChar("short-term liabilities", norm, chars, pairs, 's');
    NotSubstringByProfileChar("current liabilities", norm, chars, pairs, 'c');
    NotSubstringByProfileChar("краткосрочные", norm, chars, pairs, 'н');
  }

  /** Key 13 ('кредиты займы') matches no label lacking 'е', 'з', 'l' and 'b'. */
  lemma Key13Skipped(norm: string, chars: set<char>, pairs: set<(char, char)>)
    requires Profiled(norm, chars, pairs)
    requires 'е' !in chars && 'з' !in chars && 'l' !in chars && 'b' !in chars
    ensures !KeyMatches(BalanceItems[13].1, norm)
  {
    assert BalanceItems[13].1 == ["кредиты", "займы", "loans", "borrowings", "кредит"];
    NotSubstringByProfileChar("кредиты", norm, chars, pairs, 'е');
    NotSubstringByProfileChar("займы", norm, chars, pairs, 'з');
    NotSubstringByProfileChar("loans", norm, chars, pairs, 'l');
    NotSubstringByProfileChar("borrowings", norm, chars, pairs, 'b');
    NotSubstringByProfileChar("кредит", norm, chars, pairs, 'е');
  }

  /** Key 14 ('кредиторская задолженность') matches no label lacking 'е' and 'a'. */
  lemma Key14Skipped(norm: string, chars: set<char>, pairs: set<(char, char)>)
    requires Profiled(norm, chars, pairs)
    requires 'е' !in chars && 'a' !in chars
    ensures !KeyMatches(BalanceItems[14].1, norm)
  {
    assert BalanceItems[14].1 == ["кредиторская задолженность", "accounts payable", "кредиторская"];
    NotSubstringByProfileChar("кредиторская задолженность", norm, chars, pairs, 'е');
    NotSubstringByProfileChar("accounts payable", norm, chars, pairs, 'a');
    NotSubstringByProfileChar("кредиторская", norm, chars, pairs, 'е');
  }

  /** Key 15 ('обязательства всего') matches no label lacking 'з', 'е', 't', 'г' and 'н'. */
  lemma Key15Skipped(norm: string, chars: set<char>, pairs: set<(char, char)>)
    requires Profiled(norm, chars, pairs)
    requires 'з' !in chars && 'е' !in chars && 't' !in chars && 'г' !in chars && 'н' !in chars
    ensures !KeyMatches(BalanceItems[15].1, norm)
  {
    assert BalanceItems[15].1 == ["обязательства", "пассив всего", "total liabilities", "итого пассивы", "баланс пассив"];
    NotSubstringByProfileChar("обязательства", norm, chars, pairs, 'з');
    NotSubstringByProfileChar("пассив всего", norm, chars, pairs, 'е');
    NotSubstringByProfileChar("total liabilities", norm, chars, pairs, 't');
    NotSubstringByProfileChar("итого пассивы", norm, chars, pairs, 'г');
    NotSubstringByProfileChar("баланс пассив", norm, chars, pairs, 'н');
  }

  /** Key 16 ('выручка') matches no label lacking 'в', 'r', 's', 'д' and 'ъ'. */
  lemma Key16Skipped(norm: string, chars: set<char>, pairs: set<(char, char)>)
    requires Profiled(norm, chars, pairs)
    requires 'в' !in chars && 'r' !in chars && 's' !in chars && 'д' !in chars && 'ъ' !in chars
    ensures !KeyMatches(BalanceItems[16].1, norm)
  {
    assert BalanceItems[16].1 == ["выручка", "revenue", "sales", "доход", "объем продаж"];
    NotSubstringByProfileChar("выручка", norm, chars, pairs, 'в');
    NotSubstringByProfileChar("revenue", norm, chars, pairs, 'r');
    NotSubstringByProfileChar("sales", norm, chars, pairs, 's');
    NotSubstringByProfileChar("доход", norm, chars, pairs, 'д');
    NotSubstringByProfileChar("объем продаж", norm, chars, pairs, 'ъ');
  }

  /** Key 17 ('себестоимость') matches no label lacking 'е' and 'c'. */
  lemma Key17Skipped(norm: string, chars: set<char>, pairs: set<(char, char)>)
    requires Profiled(norm, chars, pairs)
    requires 'е' !in chars && 'c' !in chars
    ensures !KeyMatches(BalanceItems[17].1, norm)
  {
    assert BalanceItems[17].1 == ["себестоимость", "cost of sales", "cost", "себестоимость продаж"];
    NotSubstringByProfileChar("себестоимость", norm, chars, pairs, 'е');
    NotSubstringByProfileChar("cost of sales", norm, chars, pairs, 'c');
    NotSubstringByProfileChar("cost", norm, chars, pairs, 'c');
    NotSubstringByProfileChar("себестоимость продаж", norm, chars, pairs, 'е');
  }

  /** "Основные средства", as written in a statement, normalises to "основные средства". */
  lemma FixedAssetsAreNonCurrentNormalises()
    ensures Normalize("Основные средства") == "основные средства"
  {
    assert LowerChar('О') == 'о';
    assert "Основные средства" == ['О'] + "сновные средства";
    NormalizeCapitalised('О', "сновные средства", "основные средства");
  }

  /** "основные средства" is filed under key 0, 'внеоборотные активы', which lists it as a keyword before key 1 does. */
  lemma FixedAssetsAreNonCurrent()
    ensures IsFirstMatch("основные средства", 0)
    ensures BalanceItems[0].0 == "внеоборотные активы"
  {
    var norm := "основные средства";
    FirstMatchAt(norm, 0, "", "основные средства", "");
  }

  /** The characters of "итого активы". */
  const TotalAssetsLabelChars: set<char> := {'и', 'т', 'о', 'г', ' ', 'а', 'к', 'в', 'ы'}
  /** The pairs of neighbouring characters of "итого активы". */
  const TotalAssetsLabelPairs: set<(char, char)> := {('и', 'т'), ('т', 'о'), ('о', 'г'), ('г', 'о'), ('о', ' '), (' ', 'а'), ('а', 'к'), ('к', 'т'), ('т', 'и'), ('и', 'в'), ('в', 'ы')}

  /** The characters of "уставный капитал". */
  const ShareCapitalIsEquityChars: set<char> := {'у', 'с', 'т', 'а', 'в', 'н', 'ы', 'й', ' ', 'к', 'п', 'и', 'л'}
  /** The pairs of neighbouring characters of "уставный капитал". */
  const ShareCapitalIsEquityPairs: set<(char, char)> := {('у', 'с'), ('с', 'т'), ('т', 'а'), ('а', 'в'), ('в', 'н'), ('н', 'ы'), ('ы', 'й'), ('й', ' '), (' ', 'к'), ('к', 'а'), ('а', 'п'), ('п', 'и'), ('и', 'т'), ('а', 'л')}

  /** The characters of "выручка". */
  const RevenueLabelChars: set<char> := {'в', 'ы', 'р', 'у', 'ч', 'к', 'а'}
  /** The pairs of neighbouring characters of "выручка". */
  const RevenueLabelPairs: set<(char, char)> := {('в', 'ы'), ('ы', 'р'), ('р', 'у'), ('у', 'ч'), ('ч', 'к'), ('к', 'а')}

  /** The characters of "чистая прибыль (убыток)". */
  const NetProfitOrLossIsGrossProfitChars: set<char> := {'ч', 'и', 'с', 'т', 'а', 'я', ' ', 'п', 'р', 'б', 'ы', 'л', 'ь', '(', 'у', 'о', 'к', ')'}
  /** The pairs of neighbouring characters of "чистая прибыль (убыток)". */
  const NetProfitOrLossIsGrossProfitPairs: set<(char, char)> := {('ч', 'и'), ('и', 'с'), ('с', 'т'), ('т', 'а'), ('а', 'я'), ('я', ' '), (' ', 'п'), ('п', 'р'), ('р', 'и'), ('и', 'б'), ('б', 'ы'), ('ы', 'л'), ('л', 'ь'), ('ь', ' '), (' ', '('), ('(', 'у'), ('у', 'б'), ('ы', 'т'), ('т', 'о'), ('о', 'к'), ('к', ')')}

  /** A label with the profile of "итого активы" does not match key 6. */
  lemma TotalAssetsLabelSkips7(norm: string)
    requires Profiled(norm, TotalAssetsLabelChars, TotalAssetsLabelPairs)
    requires NoKeyBefore(norm, 6)
    ensures NoKeyBefore(norm, 7)
  {
    Key6Skipped(norm, TotalAssetsLabelChars, TotalAssetsLabelPairs); NoKeyBeforeNext(norm, 6);
  }

  /** A label with the profile of "итого активы" matches no key from 0 to 5. */
  lemma TotalAssetsLabelSkips6(norm: string)
    requires Profiled(norm, TotalAssetsLabelChars, TotalAssetsLabelPairs)
    ensures NoKeyBefore(norm, 6)
  {
    Key0Skipped(norm, TotalAssetsLabelChars, TotalAssetsLabelPairs); NoKeyBeforeNext(norm, 0);
    Key1Skipped(norm, TotalAssetsLabelChars, TotalAssetsLabelPairs); NoKeyBeforeNext(norm, 1);
    Key2Skipped(norm, TotalAssetsLabelChars, TotalAssetsLabelPairs); NoKeyBeforeNext(norm, 2);
    Key3Skipped(norm, TotalAssetsLabelChars, TotalAssetsLabelPairs); NoKeyBeforeNext(norm, 3);
    Key4Skipped(norm, TotalAssetsLabelChars, TotalAssetsLabelPairs); NoKeyBeforeNext(norm, 4);
    Key5Skipped(norm, TotalAssetsLabelChars, TotalAssetsLabelPairs); NoKeyBeforeNext(norm, 5);
  }

  /** "Итого активы", as written in a statement, normalises to "итого активы". */
  lemma TotalAssetsLabelNormalises()
    ensures Normalize("Итого активы") == "итого активы"
  {
    assert LowerChar('И') == 'и';
    assert "Итого активы" == ['И'] + "того активы";
    NormalizeCapitalised('И', "того активы", "итого активы");
  }

  /** "итого активы" is total assets, through the keyword 'активы'. */
  lemma TotalAssetsLabel()
    ensures IsFirstMatch("итого активы", 7)
    ensures BalanceItems[7].0 == "активы всего"
  {
    var norm := "итого активы";
    assert Profiled(norm, TotalAssetsLabelChars, TotalAssetsLabelPairs);
    TotalAssetsLabelSkips6(norm);
    TotalAssetsLabelSkips7(norm);
    FirstMatchAt(norm, 7, "итого ", "активы", "");
  }

  /** A label with the profile of "уставный капитал" matches no key from 6 to 7. */
  lemma ShareCapitalIsEquitySkips8(norm: string)
    requires Profiled(norm, ShareCapitalIsEquityChars, ShareCapitalIsEquityPairs)
    requires NoKeyBefore(norm, 6)
    ensures NoKeyBefore(norm, 8)
  {
    Key6Skipped(norm, ShareCapitalIsEquityChars, ShareCapitalIsEquityPairs); NoKeyBeforeNext(norm, 6);
    Key7Skipped(norm, ShareCapitalIsEquityChars, ShareCapitalIsEquityPairs); NoKeyBeforeNext(norm, 7);
  }

  /** A label with the profile of "уставный капитал" matches no key from 0 to 5. */
  lemma ShareCapitalIsEquitySkips6(norm: string)
    requires Profiled(norm, ShareCapitalIsEquityChars, ShareCapitalIsEquityPairs)
    ensures NoKeyBefore(norm, 6)
  {
    Key0Skipped(norm, ShareCapitalIsEquityChars, ShareCapitalIsEquityPairs); NoKeyBeforeNext(norm, 0);
    Key1Skipped(norm, ShareCapitalIsEquityChars, ShareCapitalIsEquityPairs); NoKeyBeforeNext(norm, 1);
    Key2Skipped(norm, ShareCapitalIsEquityChars, ShareCapitalIsEquityPairs); NoKeyBeforeNext(norm, 2);
    Key3Skipped(norm, ShareCapitalIsEquityChars, ShareCapitalIsEquityPairs); NoKeyBeforeNext(norm, 3);
    Key4Skipped(norm, ShareCapitalIsEquityChars, ShareCapitalIsEquityPairs); NoKeyBeforeNext(norm, 4);
    Key5Skipped(norm, ShareCapitalIsEquityChars, ShareCapitalIsEquityPairs); NoKeyBeforeNext(norm, 5);
  }

  /** "Уставный капитал", as written in a statement, normalises to "уставный капитал". */
  lemma ShareCapitalIsEquityNormalises()
    ensures Normalize("Уставный капитал") == "уставный капитал"
  {
    assert LowerChar('У') == 'у';
    assert "Уставный капитал" == ['У'] + "ставный капитал";
    NormalizeCapitalised('У', "ставный капитал", "уставный капитал");
  }

  /** "уставный капитал" is taken by key 8, 'капитал', declared before key 9, 'уставный капитал'. */
  lemma ShareCapitalIsEquity()
    ensures IsFirstMatch("уставный капитал", 8)
    ensures BalanceItems[8].0 == "капитал"
  {
    var norm := "уставный капитал";
    assert Profiled(norm, ShareCapitalIsEquityChars, ShareCapitalIsEquityPairs);
    ShareCapitalIsEquitySkips6(norm);
    ShareCapitalIsEquitySkips8(norm);
    FirstMatchAt(norm, 8, "уставный ", "капитал", "");
  }

  /** A label with the profile of "выручка" matches no key from 12 to 15. */
  lemma RevenueLabelSkips16(norm: string)
    requires Profiled(norm, RevenueLabelChars, RevenueLabelPairs)
    requires NoKeyBefore(norm, 12)
    ensures NoKeyBefore(norm, 16)
  {
    Key12Skipped(norm, RevenueLabelChars, RevenueLabelPairs); NoKeyBeforeNext(norm, 12);
    Key13Skipped(norm, RevenueLabelChars, RevenueLabelPairs); NoKeyBeforeNext(norm, 13);
    Key14Skipped(norm, RevenueLabelChars, RevenueLabelPairs); NoKeyBeforeNext(norm, 14);
    Key15Skipped(norm, RevenueLabelChars, RevenueLabelPairs); NoKeyBeforeNext(norm, 15);
  }

  /** A label with the profile of "выручка" matches no key from 6 to 11. */
  lemma RevenueLabelSkips12(norm: string)
    requires Profiled(norm, RevenueLabelChars, RevenueLabelPairs)
    requires NoKeyBefore(norm, 6)
    ensures NoKeyBefore(norm, 12)
  {
    Key6Skipped(norm, RevenueLabelChars, RevenueLabelPairs); NoKeyBeforeNext(norm, 6);
    Key7Skipped(norm, RevenueLabelChars, RevenueLabelPairs); NoKeyBeforeNext(norm, 7);
    Key8Skipped(norm, RevenueLabelChars, RevenueLabelPairs); NoKeyBeforeNext(norm, 8);
    Key9Skipped(norm, RevenueLabelChars, RevenueLabelPairs); NoKeyBeforeNext(norm, 9);
    Key10Skipped(norm, RevenueLabelChars, RevenueLabelPairs); NoKeyBeforeNext(norm, 10);
    Key11Skipped(norm, RevenueLabelChars, RevenueLabelPairs); NoKeyBeforeNext(norm, 11);
  }

  /** A label with the profile of "выручка" matches no key from 0 to 5. */
  lemma RevenueLabelSkips6(norm: string)
    requires Profiled(norm, RevenueLabelChars, RevenueLabelPairs)
    ensures NoKeyBefore(norm, 6)
  {
    Key0Skipped(norm, RevenueLabelChars, RevenueLabelPairs); NoKeyBeforeNext(norm, 0);
    Key1Skipped(norm, RevenueLabelChars, RevenueLabelPairs); NoKeyBeforeNext(norm, 1);
    Key2Skipped(norm, RevenueLabelChars, RevenueLabelPairs); NoKeyBeforeNext(norm, 2);
    Key3Skipped(norm, RevenueLabelChars, RevenueLabelPairs); NoKeyBeforeNext(norm, 3);
    Key4Skipped(norm, RevenueLabelChars, RevenueLabelPairs); NoKeyBeforeNext(norm, 4);
    Key5Skipped(norm, RevenueLabelChars, RevenueLabelPairs); NoKeyBeforeNext(norm, 5);
  }

  /** "Выручка", as written in a statement, normalises to "выручка". */
  lemma RevenueLabelNormalises()
    ensures Normalize("Выручка") == "выручка"
  {
    assert LowerChar('В') == 'в';
    assert "Выручка" == ['В'] + "ыручка";
    NormalizeCapitalised('В', "ыручка", "выручка");
  }

  /** "выручка" is revenue. */
  lemma RevenueLabel()
    ensures IsFirstMatch("выручка", 16)
    ensures BalanceItems[16].0 == "выручка"
  {
    var norm := "выручка";
    assert Profiled(norm, RevenueLabelChars, RevenueLabelPairs);
    RevenueLabelSkips6(norm);
    RevenueLabelSkips12(norm);
    RevenueLabelSkips16(norm);
    FirstMatchAt(norm, 16, "", "выручка", "");
  }

  /** A label with the profile of "чистая прибыль (убыток)" matches no key from 12 to 17. */
  lemma NetProfitOrLossIsGrossProfitSkips18(norm: string)
    requires Profiled(norm, NetProfitOrLossIsGrossProfitChars, NetProfitOrLossIsGrossProfitPairs)
    requires NoKeyBefore(norm, 12)
    ensures NoKeyBefore(norm, 18)
  {
    Key12Skipped(norm, NetProfitOrLossIsGrossProfitChars, NetProfitOrLossIsGrossProfitPairs); NoKeyBeforeNext(norm, 12);
    Key13Skipped(norm, NetProfitOrLossIsGrossProfitChars, NetProfitOrLossIsGrossProfitPairs); NoKeyBeforeNext(norm, 13);
    Key14Skipped(norm, NetProfitOrLossIsGrossProfitChars, NetProfitOrLossIsGrossProfitPairs); NoKeyBeforeNext(norm, 14);
    Key15Skipped(norm, NetProfitOrLossIsGrossProfitChars, NetProfitOrLossIsGrossProfitPairs); NoKeyBeforeNext(norm, 15);
    Key16Skipped(norm, NetProfitOrLossIsGrossProfitChars, NetProfitOrLossIsGrossProfitPairs); NoKeyBeforeNext(norm, 16);
    Key17Skipped(norm, NetProfitOrLossIsGrossProfitChars, NetProfitOrLossIsGrossProfitPairs); NoKeyBeforeNext(norm, 17);
  }

  /** A label with the profile of "чистая прибыль (убыток)" matches no key from 6 to 11. */
  lemma NetProfitOrLossIsGrossProfitSkips12(norm: string)
    requires Profiled(norm, NetProfitOrLossIsGrossProfitChars, NetProfitOrLossIsGrossProfitPairs)
    requires NoKeyBefore(norm, 6)
    ensures NoKeyBefore(norm, 12)
  {
    Key6Skipped(norm, NetProfitOrLossIsGrossProfitChars, NetProfitOrLossIsGrossProfitPairs); NoKeyBeforeNext(norm, 6);
    Key7Skipped(norm, NetProfitOrLossIsGrossProfitChars, NetProfitOrLossIsGrossProfitPairs); NoKeyBeforeNext(norm, 7);
    Key8Skipped(norm, NetProfitOrLossIsGrossProfitChars, NetProfitOrLossIsGrossProfitPairs); NoKeyBeforeNext(norm, 8);
    Key9Skipped(norm, NetProfitOrLossIsGrossProfitChars, NetProfitOrLossIsGrossProfitPairs); NoKeyBeforeNext(norm, 9);
    Key10Skipped(norm, NetProfitOrLossIsGrossProfitChars, NetProfitOrLossIsGrossProfitPairs); NoKeyBeforeNext(norm, 10);
    Key11Skipped(norm, NetProfitOrLossIsGrossProfitChars, NetProfitOrLossIsGrossProfitPairs); NoKeyBeforeNext(norm, 11);
  }

  /** A label with the profile of "чистая прибыль (убыток)" matches no key from 0 to 5. */
  lemma NetProfitOrLossIsGrossProfitSkips6(norm: string)
    requires Profiled(norm, NetProfitOrLossIsGrossProfitChars, NetProfitOrLossIsGrossProfitPairs)
    ensures NoKeyBefore(norm, 6)
  {
    Key0Skipped(norm, NetProfitOrLossIsGrossProfitChars, NetProfitOrLossIsGrossProfitPairs); NoKeyBeforeNext(norm, 0);
    Key1Skipped(norm, NetProfitOrLossIsGrossProfitChars, NetProfitOrLossIsGrossProfitPairs); NoKeyBeforeNext(norm, 1);
    Key2Skipped(norm, NetProfitOrLossIsGrossProfitChars, NetProfitOrLossIsGrossProfitPairs); NoKeyBeforeNext(norm, 2);
    Key3Skipped(norm, NetProfitOrLossIsGrossProfitChars, NetProfitOrLossIsGrossProfitPairs); NoKeyBeforeNext(norm, 3);
    Key4Skipped(norm, NetProfitOrLossIsGrossProfitChars, NetProfitOrLossIsGrossProfitPairs); NoKeyBeforeNext(norm, 4);
    Key5Skipped(norm, NetProfitOrLossIsGrossProfitChars, NetProfitOrLossIsGrossProfitPairs); NoKeyBeforeNext(norm, 5);
  }

  /** "Чистая прибыль (убыток)", as written in a statement, normalises to "чистая прибыль (убыток)". */
  lemma NetProfitOrLossIsGrossProfitNormalises()
    ensures Normalize("Чистая прибыль (убыток)") == "чистая прибыль (убыток)"
  {
    NetProfitOrLossSpelling();
    NormalizeCapitalised('Ч', "истая прибыль (убыток)", "чистая прибыль (убыток)");
  }

  /** "Чистая прибыль (убыток)" is 'Ч' before the rest of its lower-case form. */
  lemma NetProfitOrLossSpelling()
    ensures "Чистая прибыль (убыток)" == ['Ч'] + "истая прибыль (убыток)"
    ensures "чистая прибыль (убыток)" == [LowerChar('Ч')] + "истая прибыль (убыток)"
  {
    assert LowerChar('Ч') == 'ч';
  }

  /** "чистая прибыль (убыток)" is filed under key 18, 'валовая прибыль', through its keyword 'убыток', before key 21, 'чистая прибыль', is reached. */
  lemma NetProfitOrLossIsGrossProfit()
    ensures IsFirstMatch("чистая прибыль (убыток)", 18)
    ensures BalanceItems[18].0 == "валовая прибыль"
  {
    var norm := "чистая прибыль (убыток)";
    assert Profiled(norm, NetProfitOrLossIsGrossProfitChars, NetProfitOrLossIsGrossProfitPairs);
    NetProfitOrLossIsGrossProfitSkips6(norm);
    NetProfitOrLossIsGrossProfitSkips12(norm);
    NetProfitOrLossIsGrossProfitSkips18(norm);
    FirstMatchAt(norm, 18, "чистая прибыль (", "убыток", ")");
  }
}
