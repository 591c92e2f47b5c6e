/**
 * The colour-map resolver shared by the image and pipeline commands:
 * parseColormap, getPaletteColors and getColormap.
 */
module Colormap {
  import opened Wrappers
  import opened Php
  import opened Errors

  /** array_filter with !empty() followed by array_values: the entries that are not empty. */
  function KeepNonEmpty(xs: seq<string>): (r: seq<string>)
    ensures |r| <= |xs|
    ensures forall t :: t in r ==> t in xs && !IsEmpty(t)
    ensures r == [] <==> forall t :: t in xs ==> IsEmpty(t)
  {
    if xs == [] then []
    else if IsEmpty(xs[0]) then KeepNonEmpty(xs[1..])
    else [xs[0]] + KeepNonEmpty(xs[1..])
  }

  /** The positions, counted from `base`, of the entries KeepNonEmpty keeps. */
  function KeptFrom(xs: seq<string>, base: nat): seq<nat> {
    if xs == [] then []
    else (if IsEmpty(xs[0]) then [] else [base]) + KeptFrom(xs[1..], base + 1)
  }

  function KeptIndices(xs: seq<string>): seq<nat> {
    KeptFrom(xs, 0)
  }

  /**
   * `r` lists, in their original order, exactly the entries of `xs` that are
   * not empty; `idx` says where each came from.
   */
  ghost predicate SelectsNonEmpty(r: seq<string>, xs: seq<string>, idx: seq<nat>) {
    && |idx| == |r|
    && (forall k :: 0 <= k < |idx| ==> idx[k] < |xs| && r[k] == xs[idx[k]])
    && (forall k, l :: 0 <= k < l < |idx| ==> idx[k] < idx[l])
    && (forall j :: 0 <= j < |xs| ==> (j in idx <==> !IsEmpty(xs[j])))
  }

  lemma {:induction false} KeptFromLength(xs: seq<string>, base: nat)
    ensures |KeptFrom(xs, base)| == |KeepNonEmpty(xs)|
  {
    if xs != [] {
      KeptFromLength(xs[1..], base + 1);
    }
  }

  lemma {:induction false} KeptFromBounds(xs: seq<string>, base: nat)
    ensures forall k :: 0 <= k < |KeptFrom(xs, base)| ==> base <= KeptFrom(xs, base)[k] < base + |xs|
  {
    if xs != [] {
      KeptFromBounds(xs[1..], base + 1);
    }
  }

  /** The k-th entry kept is the entry at the k-th recorded position. */
  lemma {:induction false} KeptFromAt(xs: seq<string>, base: nat, k: nat)
    requires k < |KeptFrom(xs, base)|
    ensures |KeptFrom(xs, base)| == |KeepNonEmpty(xs)|
    ensures base <= KeptFrom(xs, base)[k] < base + |xs|
    ensures KeepNonEmpty(xs)[k] == xs[KeptFrom(xs, base)[k] - base]
  {
    KeptFromLength(xs, base);
    KeptFromBounds(xs, base);
    var tail := xs[1..];
    if IsEmpty(xs[0]) {
      KeptFromAt(tail, base + 1, k);
      assert KeptFrom(xs, base) == KeptFrom(tail, base + 1);
      assert KeepNonEmpty(xs) == KeepNonEmpty(tail);
      assert tail[KeptFrom(tail, base + 1)[k] - (base + 1)] == xs[KeptFrom(xs, base)[k] - base];
    } else if k > 0 {
      KeptFromAt(tail, base + 1, k - 1);
      assert KeptFrom(xs, base)[k] == KeptFrom(tail, base + 1)[k - 1];
      assert KeepNonEmpty(xs)[k] == KeepNonEmpty(tail)[k - 1];
      assert tail[KeptFrom(tail, base + 1)[k - 1] - (base + 1)] == xs[KeptFrom(xs, base)[k] - base];
    }
  }

  lemma {:induction false} KeptFromIncreasing(xs: seq<string>, base: nat)
    ensures forall k, l :: 0 <= k < l < |KeptFrom(xs, base)| ==> KeptFrom(xs, base)[k] < KeptFrom(xs, base)[l]
  {
    if xs != [] {
      KeptFromIncreasing(xs[1..], base + 1);
      KeptFromBounds(xs[1..], base + 1);
    }
  }

  lemma {:induction false} KeptFromMembers(xs: seq<string>, base: nat)
    ensures forall j :: base <= j < base + |xs| ==> (j in KeptFrom(xs, base) <==> !IsEmpty(xs[j - base]))
  {
    if xs != [] {
      KeptFromMembers(xs[1..], base + 1);
      KeptFromBounds(xs[1..], base + 1);
      var rest := KeptFrom(xs[1..], base + 1);
      assert base !in rest;
    }
  }

  lemma {:induction false} KeepNonEmptySelects(xs: seq<string>)
    ensures SelectsNonEmpty(KeepNonEmpty(xs), xs, KeptIndices(xs))
  {
    var idx, r := KeptIndices(xs), KeepNonEmpty(xs);
    assert |idx| == |r| by {
      KeptFromLength(xs, 0);
    }
    assert forall k :: 0 <= k < |idx| ==> idx[k] < |xs| && r[k] == xs[idx[k]] by {
      forall k | 0 <= k < |idx| ensures idx[k] < |xs| && r[k] == xs[idx[k]] {
        KeptFromAt(xs, 0, k);
      }
    }
    assert forall k, l :: 0 <= k < l < |idx| ==> idx[k] < idx[l] by {
      KeptFromIncreasing(xs, 0);
    }
    assert forall j :: 0 <= j < |xs| ==> (j in idx <==> !IsEmpty(xs[j])) by {
      KeptFromMembers(xs, 0);
      forall j | 0 <= j < |xs| ensures j in idx <==> !IsEmpty(xs[j]) {
        assert xs[j - 0] == xs[j];
      }
    }
  }

  /** array_map('trim', ...): each piece trimmed, in place. */
  function TrimAll(xs: seq<string>): (r: seq<string>)
    ensures |r| == |xs|
    ensures forall i :: 0 <= i < |xs| ==> r[i] == Trim(xs[i])
  {
    if xs == [] then [] else [Trim(xs[0])] + TrimAll(xs[1..])
  }

  /** Every token of the comma split, trimmed. */
  function Tokens(s: string): (r: seq<string>)
    ensures |r| == Count(',', s) + 1
  {
    TrimAll(Explode(',', s))
  }

  /** No strippable character at either end. */
  predicate IsTrimmed(t: string) {
    t == [] || (!IsTrimmable(t[0]) && !IsTrimmable(t[|t| - 1]))
  }

  lemma TrimmedPieceClean(p: string)
    requires ',' !in p
    ensures IsTrimmed(Trim(p)) && ',' !in Trim(p)
  {
  }

  lemma {:induction false} TrimAllClean(xs: seq<string>)
    requires forall p :: p in xs ==> ',' !in p
    ensures forall t :: t in TrimAll(xs) ==> IsTrimmed(t) && ',' !in t
  {
    if xs != [] {
      assert xs[0] in xs;
      TrimmedPieceClean(xs[0]);
      assert forall p :: p in xs[1..] ==> p in xs;
      TrimAllClean(xs[1..]);
      assert TrimAll(xs) == [Trim(xs[0])] + TrimAll(xs[1..]);
    }
  }

  /** The tokens kept from a colormap string are trimmed and hold no comma. */
  lemma KeptTokensClean(s: string)
    ensures forall t :: t in KeepNonEmpty(Tokens(s)) ==> IsTrimmed(t) && ',' !in t
  {
    TrimAllClean(Explode(',', s));
  }

  /**
   * parseColormap: the trimmed comma-separated tokens that are not empty; the
   * colormap is refused when there is none. Tokens are not checked to be colours.
   */
  function ParseColormap(s: string): (r: Result<seq<string>, Failure>)
    ensures r.Failure? <==> forall t :: t in Tokens(s) ==> IsEmpty(t)
    ensures r.Failure? ==> r.error == EmptyColormap
    ensures r.Success? ==> 1 <= |r.value| <= Count(',', s) + 1
    ensures r.Success? ==> forall t :: t in r.value ==> !IsEmpty(t) && IsTrimmed(t) && ',' !in t
  {
    var colors := KeepNonEmpty(Tokens(s));
    KeptTokensClean(s);
    if colors == [] then Failure(EmptyColormap) else Success(colors)
  }

  /**
   * The colours come out exactly as the trimmed tokens that are not empty,
   * in their left-to-right order.
   */
  lemma ParseColormapSelects(s: string)
    requires ParseColormap(s).Success?
    ensures SelectsNonEmpty(ParseColormap(s).value, Tokens(s), KeptIndices(Tokens(s)))
  {
    KeepNonEmptySelects(Tokens(s));
  }

  lemma BlankPieceTrimsAway(p: string)
    requires forall c :: c in p ==> c == ',' || IsTrimmable(c)
    requires ',' !in p
    ensures Trim(p) == ""
  {
  }

  /** A colormap made only of commas and blanks, such as " , ,", is refused as empty. */
  lemma BlankColormapRejected(s: string)
    requires forall c :: c in s ==> c == ',' || IsTrimmable(c)
    ensures ParseColormap(s) == Failure(EmptyColormap)
  {
    var pieces := Explode(',', s);
    var tokens := Tokens(s);
    forall i | 0 <= i < |tokens| ensures IsEmpty(tokens[i]) {
      var p := pieces[i];
      assert p in pieces;
      BlankPieceTrimsAway(p);
    }
  }

  lemma BlankExampleRejected()
    ensures ParseColormap(" , ,") == Failure(EmptyColormap)
  {
    BlankColormapRejected(" , ,");
  }

  lemma TrimOfTrimmed(t: string)
    requires t != [] && IsTrimmed(t)
    ensures Trim(t) == t
  {
    assert TrimStart(t) == t;
  }

  lemma {:induction false} KeepAllNonEmpty(xs: seq<string>)
    requires forall t :: t in xs ==> !IsEmpty(t)
    ensures KeepNonEmpty(xs) == xs
  {
    if xs != [] {
      assert xs[0] in xs;
      KeepAllNonEmpty(xs[1..]);
    }
  }

  lemma TokensOfJoined(colors: seq<string>)
    requires colors != []
    requires forall t :: t in colors ==> !IsEmpty(t) && IsTrimmed(t) && ',' !in t
    ensures Tokens(Implode([','], colors)) == colors
  {
    var tokens := Tokens(Implode([','], colors));
    ExplodeImplode(',', colors);
    forall i | 0 <= i < |colors| ensures tokens[i] == colors[i] {
      assert colors[i] in colors;
      TrimOfTrimmed(colors[i]);
    }
  }

  /**
   * Joining colours with "," and parsing the result gives the same colours back,
   * provided each is non-empty, not "0", has no blank at either end and no comma.
   */
  lemma ParseJoinedColors(colors: seq<string>)
    requires colors != []
    requires forall t :: t in colors ==> !IsEmpty(t) && IsTrimmed(t) && ',' !in t
    ensures ParseColormap(Implode(",", colors)) == Success(colors)
  {
    assert "," == [','];
    TokensOfJoined(colors);
    KeepAllNonEmpty(colors);
  }

  /** getPaletteColors: the palette's colour list, or an error when it has none. */
  function GetPaletteColors(paletteColors: string -> Option<seq<string>>, id: string): (r: Result<seq<string>, Failure>)
    ensures r.Success? <==> paletteColors(id).Some?
    ensures r.Success? ==> r.value == paletteColors(id).value
    ensures r.Failure? ==> r.error == PaletteWithoutColors(id)
  {
    match paletteColors(id)
    case None => Failure(PaletteWithoutColors(id))
    case Some(colors) => Success(colors)
  }

  /**
   * getColormap: an explicit colormap wins over a palette id; with neither
   * option the result is None (no colour map). A colormap gives a non-empty
   * list or "Colormap cannot be empty" (ColormapWins says which); a palette
   * alone gives its list or its error.
   */
  function GetColormap(palette: Option<string>, colormap: Option<string>,
                       paletteColors: string -> Option<seq<string>>): (r: Result<Option<seq<string>>, Failure>)
    ensures r == Success(None) <==> !Truthy(palette) && !Truthy(colormap)
    ensures Truthy(colormap) ==>
      (r.Success? ==> r.value.Some? && r.value.value != [])
      && (r.Failure? ==> r.error == EmptyColormap)
    ensures !Truthy(colormap) && Truthy(palette) ==>
      (r.Success? <==> paletteColors(palette.value).Some?)
      && (r.Success? ==> r.value == paletteColors(palette.value))
      && (r.Failure? ==> r.error == PaletteWithoutColors(palette.value))
  {
    if Truthy(colormap) then
      match ParseColormap(colormap.value)
      case Success(colors) => Success(Some(colors))
      case Failure(e) => Failure(e)
    else if Truthy(palette) then
      match GetPaletteColors(paletteColors, palette.value)
      case Success(colors) => Success(Some(colors))
      case Failure(e) => Failure(e)
    else Success(None)
  }

  /** With a colormap given, whatever the palette option holds, the parsed colormap is the answer. */
  lemma ColormapWins(palette: Option<string>, colormap: Option<string>, paletteColors: string -> Option<seq<string>>)
    requires Truthy(colormap)
    ensures GetColormap(palette, colormap, paletteColors) == GetColormap(None, colormap, paletteColors)
    ensures ParseColormap(colormap.value).Success? ==>
      GetColormap(palette, colormap, paletteColors) == Success(Some(ParseColormap(colormap.value).value))
    ensures ParseColormap(colormap.value).Failure? ==>
      GetColormap(palette, colormap, paletteColors) == Failure(EmptyColormap)
  {
  }

  /** Without a colormap option, a palette that has colours yields exactly its list. */
  lemma PaletteColorsReturned(palette: Option<string>, colormap: Option<string>,
                              paletteColors: string -> Option<seq<string>>)
    requires !Truthy(colormap) && Truthy(palette) && paletteColors(palette.value).Some?
    ensures GetColormap(palette, colormap, paletteColors) == Success(Some(paletteColors(palette.value).value))
  {
  }

  /** There is no colour map exactly when neither option is given (or both are "0"). */
  lemma NoColormapIffNoOption(palette: Option<string>, colormap: Option<string>, paletteColors: string -> Option<seq<string>>)
    ensures GetColormap(palette, colormap, paletteColors) == Success(None) <==> !Truthy(palette) && !Truthy(colormap)
  {
  }

  /** A palette id whose colour list is null fails with the "has no colors defined" message. */
  lemma PaletteWithoutColorsFails(palette: Option<string>, colormap: Option<string>, paletteColors: string -> Option<seq<string>>)
    requires !Truthy(colormap) && Truthy(palette) && paletteColors(palette.value).None?
    ensures GetColormap(palette, colormap, paletteColors) == Failure(PaletteWithoutColors(palette.value))
    ensures Message(GetColormap(palette, colormap, paletteColors).error)
         == "Palette '" + palette.value + "' has no colors defined"
  {
  }
}
