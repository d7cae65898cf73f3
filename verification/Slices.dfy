/** `Convert` and `ConvertErr` of pkg/internal/slices: map a function over a slice,
    stop at its first error and drop the nil results. */
module Slices {
  import opened Wrappers
  import opened Paging

  /** The non-nil results, in order. */
  function DropNil<R>(results: seq<Option<R>>): seq<R> {
    if results == [] then []
    else (if results[0].Some? then [results[0].value] else []) + DropNil(results[1..])
  }

  /** What `ConvertErr` computes, as a function. */
  function Converted<T, R>(slice: seq<T>, f: T -> Result<Option<R>>): Result<seq<R>> {
    if slice == [] then Ok([])
    else match f(slice[0])
      case Err(e) => Err(e)
      case Ok(x) =>
        match Converted(slice[1..], f)
        case Err(e) => Err(e)
        case Ok(rest) => Ok((if x.Some? then [x.value] else []) + rest)
  }

  /** Two conversions one after the other: the second runs only if the first succeeds. */
  function Then<R>(a: Result<seq<R>>, b: Result<seq<R>>): Result<seq<R>> {
    match a
    case Err(e) => Err(e)
    case Ok(x) => match b case Err(e) => Err(e) case Ok(y) => Ok(x + y)
  }

  /** Conversion is a homomorphism: converting two slices joined is converting one, then the other. */
  lemma {:induction false} ConvertedConcat<T, R>(a: seq<T>, b: seq<T>, f: T -> Result<Option<R>>)
    ensures Converted(a + b, f) == Then(Converted(a, f), Converted(b, f))
  {
    if a == [] {
      assert a + b == b;
      if Converted(b, f).Ok? { assert [] + Converted(b, f).value == Converted(b, f).value; }
    } else {
      assert (a + b)[0] == a[0] && (a + b)[1..] == a[1..] + b;
      ConvertedConcat(a[1..], b, f);
      if f(a[0]).Ok? && Converted(a[1..], f).Ok? && Converted(b, f).Ok? {
        var x := f(a[0]).value;
        var head := if x.Some? then [x.value] else [];
        assert head + (Converted(a[1..], f).value + Converted(b, f).value)
            == (head + Converted(a[1..], f).value) + Converted(b, f).value;
      }
    }
  }

  function EachPage<T, R>(pages: seq<seq<T>>, f: T -> Result<Option<R>>): Result<seq<R>> {
    if pages == [] then Ok([]) else Then(Converted(pages[0], f), EachPage(pages[1..], f))
  }

  /** Converting page by page and joining is converting the joined pages. */
  lemma {:induction false} ConvertedPages<T, R>(pages: seq<seq<T>>, f: T -> Result<Option<R>>)
    ensures EachPage(pages, f) == Converted(Flatten(pages), f)
  {
    if pages != [] {
      ConvertedPages(pages[1..], f);
      ConvertedConcat(pages[0], Flatten(pages[1..]), f);
    }
  }

  ghost predicate FirstError<T, R>(slice: seq<T>, f: T -> Result<Option<R>>, i: nat) {
    i < |slice| && f(slice[i]).Err? && forall j | 0 <= j < i :: f(slice[j]).Ok?
  }

  /** Conversion against the reference "map, stop at the first error, drop nil": the
      result is the error at the first failing index, or every mapped value but nil. */
  lemma {:induction false} ConvertedMeaning<T, R>(slice: seq<T>, f: T -> Result<Option<R>>)
    ensures Converted(slice, f).Ok? <==> forall i | 0 <= i < |slice| :: f(slice[i]).Ok?
    ensures forall i: nat | FirstError(slice, f, i) :: Converted(slice, f) == Err(f(slice[i]).error)
    ensures Converted(slice, f).Ok? ==>
              Converted(slice, f).value ==
              DropNil(seq(|slice|, i requires 0 <= i < |slice| =>
                            match f(slice[i]) case Ok(x) => x case Err(_) => None))
  {
    if slice != [] {
      ConvertedMeaning(slice[1..], f);
      assert forall i | 0 < i < |slice| :: slice[i] == slice[1..][i - 1];
      assert forall i | 0 <= i < |slice| - 1 :: slice[1..][i] == slice[i + 1];
      forall i: nat | FirstError(slice, f, i) ensures Converted(slice, f) == Err(f(slice[i]).error) {
        if i > 0 { assert FirstError(slice[1..], f, i - 1); }
      }
      var g := (i: int) requires 0 <= i < |slice| => match f(slice[i]) case Ok(x) => x case Err(_) => None;
      var mapped := seq(|slice|, g);
      assert mapped[1..] == seq(|slice[1..]|, i requires 0 <= i < |slice[1..]| =>
                                  match f(slice[1..][i]) case Ok(x) => x case Err(_) => None);
      assert mapped == seq(|slice|, i requires 0 <= i < |slice| =>
                             match f(slice[i]) case Ok(x) => x case Err(_) => None);
    }
  }

  /** One more element: its error ends the conversion, its value is appended, nil adds nothing. */
  lemma ConvertedNext<T, R>(slice: seq<T>, f: T -> Result<Option<R>>, i: nat)
    requires i < |slice| && Converted(slice[..i], f).Ok?
    ensures f(slice[i]).Err? ==> Converted(slice, f) == Err(f(slice[i]).error)
    ensures f(slice[i]).Ok? ==>
              var before := Converted(slice[..i], f).value;
              Converted(slice[..i + 1], f) ==
              Ok(if f(slice[i]).value.Some? then before + [f(slice[i]).value.value] else before)
  {
    var x := slice[i];
    assert slice == slice[..i] + slice[i..] && slice[i..][0] == x;
    ConvertedConcat(slice[..i], slice[i..], f);
    assert slice[..i + 1] == slice[..i] + [x];
    ConvertedConcat(slice[..i], [x], f);
    assert [x][1..] == [];
    if f(x).Ok? {
      var head := if f(x).value.Some? then [f(x).value.value] else [];
      assert head + [] == head;
      assert Converted([x], f) == Ok(head);
    }
    assert Converted(slice[..i], f).value + [] == Converted(slice[..i], f).value;
  }

  method ConvertErr<T, R>(slice: seq<T>, f: T -> Result<Option<R>>) returns (r: Result<seq<R>>)
    ensures r == Converted(slice, f)
  {
    var ret: seq<R> := [];
    for i := 0 to |slice|
      invariant Converted(slice[..i], f) == Ok(ret)
    {
      ConvertedNext(slice, f, i);
      var x := f(slice[i]);
      if x.Err? {
        return Err(x.error);
      }
      if x.value.Some? {
        ret := ret + [x.value.value];
      }
    }
    assert slice[..|slice|] == slice;
    return Ok(ret);
  }

  method Convert<T, R>(slice: seq<T>, f: T -> Option<R>) returns (ret: seq<R>)
    ensures Converted(slice, t => Ok(f(t))) == Ok(ret)
  {
    ghost var g: T -> Result<Option<R>> := t => Ok(f(t));
    ret := [];
    for i := 0 to |slice|
      invariant Converted(slice[..i], g) == Ok(ret)
    {
      ConvertedNext(slice, g, i);
      var r := f(slice[i]);
      if r.Some? {
        ret := ret + [r.value];
      }
    }
    assert slice[..|slice|] == slice;
  }
}
