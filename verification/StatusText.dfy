/** The bypass text of fp_collect_status (src/operations.c). */
module StatusText {
  import opened Wrappers
  import opened Text
  import opened Address
  import opened BypassLanguage
  import opened ConfigFile

  const BYPASS_TEXT_SIZE: nat := 640   // FP_MAX_BYPASS * 20

  /** snprintf appended to `buffer`: what does not fit before the terminating NUL is dropped. */
  function PrintInto(buffer: string, text: string, size: nat): string
    requires |buffer| < size
  {
    var room := size - |buffer| - 1;
    buffer + (if |text| <= room then text else text[..room])
  }

  function Texts(es: seq<Bypass>): seq<string> {
    seq(|es|, i requires 0 <= i < |es| => es[i].text)
  }

  function JoinSnocText(parts: seq<string>, last: string): string {
    if parts == [] then last else Join(parts, ',') + ("," + last)
  }

  lemma {:induction false} JoinSnoc(parts: seq<string>, last: string)
    ensures Join(parts + [last], ',') == JoinSnocText(parts, last)
  {
    if |parts| > 1 {
      assert (parts + [last])[1..] == parts[1..] + [last];
      JoinSnoc(parts[1..], last);
    } else if |parts| == 1 {
      assert (parts + [last])[1..] == [last];
    }
  }

  lemma {:induction false} JoinLength(parts: seq<string>)
    requires |parts| >= 1 && forall i :: 0 <= i < |parts| ==> |parts[i]| <= 18
    ensures |Join(parts, ',')| <= 19 * |parts| - 1
  {
    if |parts| > 1 {
      JoinLength(parts[1..]);
    }
  }

  /** The texts of up to 32 entries, joined, fit the buffer. */
  lemma JoinFits(es: seq<Bypass>, count: nat)
    requires ListOk(es) && 1 <= count <= |es|
    ensures |Join(Texts(es)[..count], ',')| < BYPASS_TEXT_SIZE
  {
    var parts := Texts(es)[..count];
    forall i | 0 <= i < count
      ensures |parts[i]| <= 18
    {
      CanonicalText(es[i]);
    }
    JoinLength(parts);
  }

  /** Every prefix of the texts, joined, fits the buffer. */
  predicate Fits(parts: seq<string>) {
    forall k {:trigger parts[..k]} :: 1 <= k <= |parts| ==> |Join(parts[..k], ',')| < BYPASS_TEXT_SIZE
  }

  lemma TextsFit(es: seq<Bypass>)
    requires ListOk(es)
    ensures Fits(Texts(es))
  {
    forall k | 1 <= k <= |es|
      ensures |Join(Texts(es)[..k], ',')| < BYPASS_TEXT_SIZE
    {
      JoinFits(es, k);
    }
  }

  /** The appending loop of fp_collect_status. */
  method JoinTexts(parts: seq<string>) returns (text: string)
    requires parts != [] && Fits(parts)
    ensures text == Join(parts, ',')
  {
    text := "";
    var index := 0;
    while index < |parts|
      invariant 0 <= index <= |parts|
      invariant |text| < BYPASS_TEXT_SIZE
      invariant text == if index == 0 then "" else Join(parts[..index], ',')
    {
      TakeOneMore(parts, index);
      JoinSnoc(parts[..index], parts[index]);
      text := PrintInto(text, (if index == 0 then "" else ",") + parts[index], BYPASS_TEXT_SIZE);
      index := index + 1;
    }
    assert parts[..index] == parts;
  }

  /** The joined texts, complete whatever their number; "none" for an empty list. */
  method CollectBypass(es: seq<Bypass>) returns (text: string)
    requires ListOk(es)
    ensures text == if es == [] then "none" else Join(Texts(es), ',')
  {
    if |es| == 0 {
      return PrintInto("", "none", BYPASS_TEXT_SIZE);
    }
    TextsFit(es);
    text := JoinTexts(Texts(es));
  }

  function Somes(es: seq<Bypass>): seq<Option<Bypass>> {
    seq(|es|, i requires 0 <= i < |es| => Some(es[i]))
  }

  lemma ChecksOfTexts(es: seq<Bypass>)
    requires forall i :: 0 <= i < |es| ==> Canonical(es[i])
    ensures Checks(Texts(es)) == Somes(es)
  {
    forall i | 0 <= i < |es|
      ensures Check(es[i].text) == Some(es[i])
    {
      CanonicalChecks(es[i]);
    }
  }

  /** The entries of a canonical list are appended one by one. */
  lemma {:induction false} SomesAppend(done: seq<Bypass>, es: seq<Bypass>)
    requires ListOk(done + es)
    ensures AppendAll(done, Somes(es)) == Some(done + es)
    decreases |es|
  {
    if es == [] {
      assert done + es == done;
    } else {
      assert done + es == done + [es[0]] + es[1..];
      ListParts(done, es[0], es[1..]);
      InsertIs(done, es[0]);
      assert Somes(es)[1..] == Somes(es[1..]);
      SomesAppend(done + [es[0]], es[1..]);
    }
  }

  /** Reading back the status text of a non-empty list gives the identical list, so
      saving an unedited list changes nothing. */
  lemma StatusFixedPoint(es: seq<Bypass>)
    requires ListOk(es) && es != []
    ensures ParseList(Join(Texts(es), ',')) == Some(es)
  {
    var parts := Texts(es);
    forall i | 0 <= i < |parts|
      ensures Without(parts[i], ',') && |parts[i]| >= 7
    {
      CanonicalText(es[i]);
      AddressTextHasNoComma(parts[i]);
    }
    SplitOfJoin(parts, ',');
    assert [] + es == es;
    ChecksOfTexts(es);
    SomesAppend([], es);
    NonEmptyJoin(parts);
  }

  // ---- a token that repeats a stored entry ----

  lemma ChecksOfMore(es: seq<Bypass>, token: string)
    requires forall i :: 0 <= i < |es| ==> Canonical(es[i])
    ensures Checks(Texts(es) + [token]) == Somes(es) + [Check(token)]
  {
    ChecksOfTexts(es);
    assert Checks(Texts(es) + [token]) == Checks(Texts(es)) + [Check(token)];
  }

  lemma RepeatAppended(es: seq<Bypass>, e: Bypass)
    requires ListOk(es) && e in es
    ensures AppendAll([], Somes(es) + [Some(e)]) == if |es| == MAX_BYPASS then None else Some(es)
  {
    assert [] + es == es;
    SomesAppend([], es);
    AppendAllSnoc([], Somes(es), Some(e));
  }

  /** Adding a token that names a stored block to the text of a list changes nothing, except
      that it makes the text of a full list unreadable. */
  lemma RepeatRefusedExactlyWhenFull(es: seq<Bypass>, token: string, e: Bypass)
    requires ListOk(es) && Without(token, ',') && Check(token) == Some(e) && e in es
    ensures ParseList(Join(Texts(es), ',')) == Some(es)
    ensures ParseList(Join(Texts(es) + [token], ',')) == if |es| == MAX_BYPASS then None else Some(es)
  {
    StatusFixedPoint(es);
    var parts := Texts(es) + [token];
    forall i | 0 <= i < |parts|
      ensures Without(parts[i], ',')
    {
      if i < |es| {
        CanonicalText(es[i]);
        AddressTextHasNoComma(es[i].text);
      }
    }
    SplitOfJoin(parts, ',');
    CanonicalText(es[0]);
    NonEmptyJoin(parts);
    ChecksOfMore(es, token);
    RepeatAppended(es, e);
  }

  /** A full list, and a token that repeats its first entry. */
  lemma RepeatRefused() returns (es: seq<Bypass>, token: string)
    ensures ListOk(es) && |es| == MAX_BYPASS
    ensures ParseList(Join(Texts(es), ',')) == Some(es) && Check(token) == Some(es[0])
    ensures ParseList(Join(Texts(es) + [token], ',')).None?
  {
    es := seq(MAX_BYPASS, i requires 0 <= i < MAX_BYPASS => Entry(i, 32));
    forall i | 0 <= i < |es|
      ensures Canonical(es[i]) && es[i].network == i
    {
      EntryIsCanonical(i, 32);
    }
    token := es[0].text;
    CanonicalText(es[0]);
    AddressTextHasNoComma(token);
    CanonicalChecks(es[0]);
    RepeatRefusedExactlyWhenFull(es, token, es[0]);
  }

  lemma AddressTextHasNoComma(s: string)
    requires AddressText(s)
    ensures Without(s, ',')
  {
  }

  lemma NonEmptyJoin(parts: seq<string>)
    requires |parts| >= 1 && parts[0] != ""
    ensures Join(parts, ',') != ""
  {
  }

  /** The text shown for an empty list is not in the bypass language. */
  lemma NoneIsNotAList()
    ensures ParseList("none").None?
  {
    var s := "none";
    FindAbsent(s, ',');
    FindAbsent(s, '/');
    FindAbsent(s, '.');
    assert s[..4] == s;
    TrimKeeps(s);
    assert EntryOf(s).None?;
    assert Checks([s])[0].None?;
  }
}
