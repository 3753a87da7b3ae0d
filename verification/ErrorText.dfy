/** The text under which an exception is recorded (`_normalize_error`), and the check it has to pass in a checkpoint. */
module ErrorText {
  import opened Session

  const NUL := '\0'

  function TrimLeft(text: string, space: char -> bool): string {
    if text != [] && space(text[0]) then TrimLeft(text[1..], space) else text
  }

  function TrimRight(text: string, space: char -> bool): string {
    if text != [] && space(text[|text| - 1]) then TrimRight(text[..|text| - 1], space) else text
  }

  function Trim(text: string, space: char -> bool): string {
    TrimLeft(TrimRight(text, space), space)
  }

  function WithoutNul(text: string): string {
    if text == [] then []
    else WithoutNul(text[..|text| - 1]) + if text[|text| - 1] == NUL then [] else [text[|text| - 1]]
  }

  /** The characters of the text that count: the trimmed message, or the exception's type when that is empty, without
      its NUL characters. */
  function Visible(message: string, typeName: string, space: char -> bool): string {
    var text := Trim(message, space);
    WithoutNul(if text == "" then typeName else text)
  }

  function NormalizeError(message: string, typeName: string, space: char -> bool): string {
    var text := Visible(message, typeName, space);
    if |text| <= MAX_ERROR_LENGTH then text else text[..MAX_ERROR_LENGTH]
  }

  /** The constructor's check of an optional text: no NUL, and neither empty nor too long once trimmed. */
  predicate Recordable(text: string, space: char -> bool) {
    NUL !in text && 0 < |Trim(text, space)| <= MAX_ERROR_LENGTH
  }

  lemma {:induction false} NoNulLeft(text: string)
    ensures NUL !in WithoutNul(text)
  {
    if text != [] { NoNulLeft(text[..|text| - 1]); }
  }

  lemma {:induction false} TrimRightExactly(text: string, space: char -> bool)
    ensures |TrimRight(text, space)| <= |text|
    ensures TrimRight(text, space) == "" <==> forall k :: 0 <= k < |text| ==> space(text[k])
    ensures TrimRight(text, space) != "" ==> !space(TrimRight(text, space)[|TrimRight(text, space)| - 1])
  {
    if text != [] && space(text[|text| - 1]) { TrimRightExactly(text[..|text| - 1], space); }
  }

  lemma {:induction false} TrimLeftExactly(text: string, space: char -> bool)
    ensures |TrimLeft(text, space)| <= |text|
    ensures TrimLeft(text, space) == "" <==> forall k :: 0 <= k < |text| ==> space(text[k])
  {
    if text != [] && space(text[0]) {
      TrimLeftExactly(text[1..], space);
      assert forall k :: 0 < k < |text| ==> text[k] == text[1..][k - 1];
    }
  }

  lemma TrimExactly(text: string, space: char -> bool)
    ensures |Trim(text, space)| <= |text|
    ensures Trim(text, space) == "" <==> forall k :: 0 <= k < |text| ==> space(text[k])
  {
    TrimRightExactly(text, space);
    TrimLeftExactly(TrimRight(text, space), space);
  }

  /** An error can be recorded exactly when one of the first 2048 characters that are left without NULs is not white
      space.  Otherwise the handler that records the error raises itself, and the session stays RUNNING. */
  lemma RecordableExactly(message: string, typeName: string, space: char -> bool)
    ensures Recordable(NormalizeError(message, typeName, space), space) <==>
            var text := Visible(message, typeName, space);
            exists k :: 0 <= k < |text| && k < 2048 && !space(text[k])
  {
    var text := NormalizeError(message, typeName, space);
    TrimExactly(text, space);
    NoNulLeft(if Trim(message, space) == "" then typeName else Trim(message, space));
  }

  /** What is left of a text, and where: white space goes at both ends and nowhere else. */
  lemma TrimmedBetween(text: string, space: char -> bool) returns (i: nat, j: nat)
    ensures i <= j <= |text| && Trim(text, space) == text[i..j]
    ensures forall k :: 0 <= k < |text| && (k < i || j <= k) ==> space(text[k])
    ensures i < j ==> !space(text[i]) && !space(text[j - 1])
  {
    j := RightEnd(text, space);
    i := LeftEnd(text[..j], space);
  }

  lemma {:induction false} RightEnd(text: string, space: char -> bool) returns (j: nat)
    ensures j <= |text| && TrimRight(text, space) == text[..j]
    ensures (forall k :: j <= k < |text| ==> space(text[k])) && (j > 0 ==> !space(text[j - 1]))
  {
    j := |text|;
    if text != [] && space(text[|text| - 1]) {
      j := RightEnd(text[..|text| - 1], space);
    }
  }

  lemma {:induction false} LeftEnd(text: string, space: char -> bool) returns (i: nat)
    ensures i <= |text| && TrimLeft(text, space) == text[i..]
    ensures (forall k :: 0 <= k < i ==> space(text[k])) && (i < |text| ==> !space(text[i]))
  {
    i := 0;
    if text != [] && space(text[0]) {
      var next := LeftEnd(text[1..], space);
      i := next + 1;
      assert forall k :: 0 < k < i ==> text[k] == text[1..][k - 1];
    }
  }

  /** NUL characters go, wherever they are, and nothing else does. */
  lemma {:induction false} WithoutNulExactly(a: string, b: string)
    ensures WithoutNul(a + b) == WithoutNul(a) + WithoutNul(b)
    ensures NUL !in a ==> WithoutNul(a) == a
    ensures WithoutNul([NUL]) == []
  {
    assert [NUL][..0] == [] && WithoutNul([]) == [];
    KeptWithoutNul(a);
    if b == [] {
      assert a + b == a;
    } else {
      WithoutNulExactly(a, b[..|b| - 1]);
      assert (a + b)[..|a + b| - 1] == a + b[..|b| - 1];
    }
  }

  lemma {:induction false} KeptWithoutNul(a: string)
    ensures NUL !in a ==> WithoutNul(a) == a
  {
    if a != [] { KeptWithoutNul(a[..|a| - 1]); }
  }

  /** The recorded text: the first 2048 characters of the trimmed message without its NULs, or of the name of the
      exception's type when the message is blank. */
  lemma NormalizedExactly(message: string, typeName: string, space: char -> bool)
    ensures var blank := forall k :: 0 <= k < |message| ==> space(message[k]);
      var text := WithoutNul(if blank then typeName else Trim(message, space));
      var r := NormalizeError(message, typeName, space);
      r <= text && |r| == (if |text| < 2048 then |text| else 2048) && NUL !in r
  {
    TrimExactly(message, space);
    NoNulLeft(if Trim(message, space) == "" then typeName else Trim(message, space));
  }

  /** An exception whose message is a NUL character is one that cannot be recorded. */
  lemma NulCannotBeRecorded(typeName: string)
    ensures var space := (c: char) => c == ' '; !Recordable(NormalizeError([NUL], typeName, space), space)
  {
    var space := (c: char) => c == ' ';
    assert Trim([NUL], space) == [NUL];
    assert Visible([NUL], typeName, space) == [] by { assert WithoutNul([]) == []; assert [NUL][..0] == []; }
    RecordableExactly([NUL], typeName, space);
  }
}
