/** The library's getline. */
module Streams {

  /** The text up to the next delimiter, and what a further getline starts with. */
  function GetLine(s: string, delim: char): (r: (string, string))
    ensures |r.0| + |r.1| <= |s| && (s != "" ==> |r.1| < |s|)
  {
    if s == "" then ("", "")
    else if s[0] == delim then ("", s[1..])
    else var (line, rest) := GetLine(s[1..], delim); ([s[0]] + line, rest)
  }

  lemma {:induction false} GetLineSplits(a: string, delim: char, b: string)
    requires delim !in a
    ensures GetLine(a + [delim] + b, delim) == (a, b)
  {
    if a == "" {
      assert a + [delim] + b == [delim] + b;
    } else {
      GetLineSplits(a[1..], delim, b);
      assert (a + [delim] + b)[1..] == a[1..] + [delim] + b;
      assert (a + [delim] + b)[0] == a[0] && a == [a[0]] + a[1..];
    }
  }

  lemma {:induction false} GetLineTakesAll(a: string, delim: char)
    requires delim !in a
    ensures GetLine(a, delim) == (a, "")
  {
    if a != "" {
      GetLineTakesAll(a[1..], delim);
      assert a == [a[0]] + a[1..];
    }
  }

  lemma {:induction false} LineIsPlain(s: string, delim: char)
    ensures delim !in GetLine(s, delim).0
  {
    if s != "" && s[0] != delim {
      LineIsPlain(s[1..], delim);
    }
  }
}

/** Payloads: fields joined by colons (TransactionManager.cpp, split; TmContract.cpp, the payloads
    of QUERY and VOTE_YES). */
module Payloads {
  import opened Streams

  const SEPARATOR := ':'

  /** What joins the fields of a payload. */
  function Join(fields: seq<string>): string {
    if fields == [] then ""
    else if |fields| == 1 then fields[0]
    else fields[0] + [SEPARATOR] + Join(fields[1..])
  }

  /** The tokens successive calls of getline yield: none after a separator at the very end. */
  function Tokens(s: string): seq<string>
    decreases |s|
  {
    if s == "" then [] else [GetLine(s, SEPARATOR).0] + Tokens(GetLine(s, SEPARATOR).1)
  }

  /** The loop of the source: getline until the stream is used up. */
  method Split(s: string) returns (v: seq<string>)
    ensures v == Tokens(s)
  {
    v := [];
    var rest := s;
    while rest != ""
      invariant v + Tokens(rest) == Tokens(s)
      decreases |rest|
    {
      var (line, next) := GetLine(rest, SEPARATOR);
      v := v + [line];
      rest := next;
    }
  }

  predicate Plain(field: string) { SEPARATOR !in field }

  /** An empty last field is lost; nothing else is. */
  lemma {:induction false} TokensOfJoin(fields: seq<string>)
    requires forall i :: 0 <= i < |fields| ==> Plain(fields[i])
    ensures Tokens(Join(fields)) ==
      if fields != [] && fields[|fields| - 1] == "" then fields[..|fields| - 1] else fields
  {
    if |fields| == 1 {
      GetLineTakesAll(fields[0], SEPARATOR);
    } else if |fields| > 1 {
      GetLineSplits(fields[0], SEPARATOR, Join(fields[1..]));
      TokensOfJoin(fields[1..]);
    }
  }

  lemma {:induction false} TokensArePlain(s: string)
    ensures forall i :: 0 <= i < |Tokens(s)| ==> Plain(Tokens(s)[i])
    decreases |s|
  {
    if s != "" {
      LineIsPlain(s, SEPARATOR);
      TokensArePlain(GetLine(s, SEPARATOR).1);
    }
  }

  /** Splitting inverts joining exactly for fields without colons whose last one is not empty. */
  lemma SplitInvertsJoinIff(fields: seq<string>)
    ensures Tokens(Join(fields)) == fields <==>
      (forall i :: 0 <= i < |fields| ==> Plain(fields[i])) && (fields != [] ==> fields[|fields| - 1] != "")
  {
    if Tokens(Join(fields)) == fields {
      TokensArePlain(Join(fields));
      TokensOfJoin(fields);
    } else if forall i :: 0 <= i < |fields| ==> Plain(fields[i]) {
      TokensOfJoin(fields);
    }
  }

  /** A vote splits into two fields exactly if it names a Bitcoin transaction. */
  lemma VoteHasTwoFieldsIff(amount: string, txId: string)
    requires Plain(amount) && Plain(txId)
    ensures |Tokens(Join([amount, txId]))| == 2 <==> txId != ""
  {
    TokensOfJoin([amount, txId]);
  }
}
