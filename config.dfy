/** The `models` settings validator: a comma-separated string becomes the
    list of its non-blank pieces, stripped; any other value passes through. */
module Config {
  import opened PyText

  /** The raw value given for `models`: a string (as read from the
      environment), a list of names, or some other value (kept opaque). */
  datatype RawValue = TextValue(s: string) | ListValue(items: seq<string>) | OtherValue(id: int)

  /** `[m.strip() for m in pieces if m.strip()]`. */
  function CleanPieces(pieces: seq<string>): (names: seq<string>)
    ensures |names| <= |pieces|
    decreases |pieces|
  {
    if pieces == [] then []
    else
      var rest := CleanPieces(pieces[1..]);
      if Strip(pieces[0]) != [] then [Strip(pieces[0])] + rest else rest
  }

  /** `split_models`. */
  function SplitModels(v: RawValue): (r: RawValue)
    ensures !v.TextValue? ==> r == v
    ensures v.TextValue? ==> r.ListValue?
  {
    match v
    case TextValue(s) => ListValue(CleanPieces(Split(s, ',')))
    case _ => v
  }

  /** Each piece contributes on its own: cleaning keeps the pieces' order,
      a blank piece contributes nothing and any other piece exactly its
      stripped text. */
  lemma {:induction false} CleanPiecesAppend(a: seq<string>, b: seq<string>)
    ensures CleanPieces(a + b) == CleanPieces(a) + CleanPieces(b)
    decreases |a|
  {
    if a == [] {
      assert a + b == b;
    } else {
      assert (a + b)[1..] == a[1..] + b;
      CleanPiecesAppend(a[1..], b);
    }
  }

  lemma CleanPiecesSingle(p: string)
    ensures CleanPieces([p]) == if Strip(p) == [] then [] else [Strip(p)]
  {
    assert [p][1..] == [];
  }

  /** Every name is non-blank and has no surrounding whitespace. */
  lemma {:induction false} CleanPiecesNames(pieces: seq<string>, i: int)
    requires 0 <= i < |CleanPieces(pieces)|
    ensures CleanPieces(pieces)[i] != [] && Trimmed(CleanPieces(pieces)[i])
    decreases |pieces|
  {
    var rest := CleanPieces(pieces[1..]);
    var m := Strip(pieces[0]);
    assert CleanPieces(pieces) == if m != [] then [m] + rest else rest;
    if m != [] {
      if i > 0 {
        CleanPiecesNames(pieces[1..], i - 1);
      }
    } else {
      CleanPiecesNames(pieces[1..], i);
    }
  }

  /** A character that occurs in no piece occurs in no name. */
  lemma {:induction false} CleanPiecesAvoid(pieces: seq<string>, c: char, i: int)
    requires forall j :: 0 <= j < |pieces| ==> c !in pieces[j]
    requires 0 <= i < |CleanPieces(pieces)|
    ensures c !in CleanPieces(pieces)[i]
    decreases |pieces|
  {
    var rest := CleanPieces(pieces[1..]);
    var m := Strip(pieces[0]);
    assert CleanPieces(pieces) == if m != [] then [m] + rest else rest;
    if m != [] {
      if i > 0 {
        CleanPiecesAvoid(pieces[1..], c, i - 1);
      }
    } else {
      CleanPiecesAvoid(pieces[1..], c, i);
    }
  }

  /** On a string every resulting name is non-blank, has no surrounding
      whitespace and contains no comma. */
  lemma SplitModelsNames(s: string, i: int)
    requires 0 <= i < |SplitModels(TextValue(s)).items|
    ensures var name := SplitModels(TextValue(s)).items[i];
      name != [] && Trimmed(name) && ',' !in name
  {
    var pieces := Split(s, ',');
    CleanPiecesNames(pieces, i);
    CleanPiecesAvoid(pieces, ',', i);
  }

  /** Names that are non-empty, free of surrounding whitespace and of
      commas, joined with `","`, come back as the same list. */
  lemma {:induction false} SplitModelsOfJoin(names: seq<string>)
    requires forall i :: 0 <= i < |names| ==> names[i] != [] && Trimmed(names[i]) && ',' !in names[i]
    ensures SplitModels(TextValue(Join(names, ","))) == ListValue(names)
  {
    if names == [] {
      assert Split("", ',') == [[]];
      assert CleanPieces([[]]) == CleanPieces([[]][1..]);
    } else {
      SplitJoin(names, ',');
      CleanTrimmed(names);
    }
  }

  lemma {:induction false} CleanTrimmed(names: seq<string>)
    requires forall i :: 0 <= i < |names| ==> names[i] != [] && Trimmed(names[i])
    ensures CleanPieces(names) == names
    decreases |names|
  {
    if names != [] {
      CleanTrimmed(names[1..]);
      assert [names[0]] + names[1..] == names;
    }
  }
}
