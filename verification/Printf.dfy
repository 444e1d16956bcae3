/** The tiny formatted printer of the report: src/tm_report.c. */
module Printf {
  import opened Wrappers
  import opened Decimal

  /** One variable argument; a string argument may be the null pointer. */
  datatype Arg = ULong(val: nat) | Int(n: int) | Str(s: Option<string>)

  datatype Kind = UnsignedLong | SignedInt | CString

  datatype Piece = Text(t: string) | Conversion(kind: Kind)

  const NUL: char := '\0'

  /** A C string without its terminator. */
  predicate CStr(s: string) {
    NUL !in s
  }

  ghost predicate Passable(a: Arg) {
    match a
    case ULong(v) => v < ULONG_MODULUS
    case Int(n) => INT_MIN <= n <= INT_MAX
    case Str(None) => true
    case Str(Some(s)) => CStr(s)
  }

  predicate Answers(a: Arg, kind: Kind) {
    match kind
    case UnsignedLong => a.ULong?
    case SignedInt => a.Int?
    case CString => a.Str?
  }

  // ----- the meaning of a format -----

  /** The first piece of a format and how many characters spell it. */
  function First(fmt: string): (r: (Piece, nat))
    requires fmt != []
    ensures 0 < r.1 <= |fmt|
  {
    if fmt[0] != '%' then (Text(fmt[..1]), 1)
    else if |fmt| == 1 then (Text([]), 1)
    else match fmt[1]
      case 'l' =>
        if |fmt| == 2 then (Text("%l"), 2)
        else if fmt[2] == 'u' then (Conversion(UnsignedLong), 3)
        else (Text(fmt[..3]), 3)
      case 'd' => (Conversion(SignedInt), 2)
      case 's' => (Conversion(CString), 2)
      case '%' => (Text("%"), 2)
      case _ => (Text(fmt[..2]), 2)
  }

  function Pieces(fmt: string): seq<Piece>
    decreases |fmt|
  {
    if fmt == [] then [] else [First(fmt).0] + Pieces(fmt[First(fmt).1..])
  }

  /** How many arguments a piece takes. */
  function Taken(piece: Piece): nat {
    if piece.Text? then 0 else 1
  }

  function Asked(ps: seq<Piece>): nat {
    if ps == [] then 0 else Taken(ps[0]) + Asked(ps[1..])
  }

  /** The next argument is there and of the kind the piece asks for. */
  ghost predicate Ready(piece: Piece, args: seq<Arg>) {
    piece.Conversion? ==> args != [] && Answers(args[0], piece.kind) && Passable(args[0])
  }

  /** The caller passed the arguments the format asks for, in order. */
  ghost predicate Fits(ps: seq<Piece>, args: seq<Arg>)
    ensures Fits(ps, args) ==> Asked(ps) <= |args|
    decreases |ps|
  {
    ps == [] || (Ready(ps[0], args) && Fits(ps[1..], args[Taken(ps[0])..]))
  }

  function Show(a: Arg): string {
    match a
    case ULong(v) => Digits(v)
    case Int(n) => Signed(n)
    case Str(None) => "(null)"
    case Str(Some(s)) => s
  }

  ghost function Shown(piece: Piece, args: seq<Arg>): string
    requires Ready(piece, args)
  {
    if piece.Text? then piece.t else Show(args[0])
  }

  /** Texts stand for themselves; each conversion takes the next argument. */
  ghost function Render(ps: seq<Piece>, args: seq<Arg>): string
    requires Fits(ps, args)
    decreases |ps|
  {
    if ps == [] then [] else Shown(ps[0], args) + Render(ps[1..], args[Taken(ps[0])..])
  }

  // ----- laws -----

  lemma {:induction false} AskedConcat(p: seq<Piece>, q: seq<Piece>)
    ensures Asked(p + q) == Asked(p) + Asked(q)
  {
    if p == [] {
      assert p + q == q;
    } else {
      assert (p + q)[1..] == p[1..] + q;
      AskedConcat(p[1..], q);
    }
  }

  lemma Regroup<T>(a: seq<T>, b: seq<T>, c: seq<T>)
    ensures a + (b + c) == (a + b) + c
  {
  }

  /** A text prints itself and leaves the arguments to the rest. */
  lemma TextFirst(t: string, ps: seq<Piece>, args: seq<Arg>)
    requires Fits(ps, args)
    ensures Fits([Text(t)] + ps, args) && Render([Text(t)] + ps, args) == t + Render(ps, args)
  {
    assert ([Text(t)] + ps)[1..] == ps && args[0..] == args;
  }

  /** A conversion prints its argument and leaves the others to the rest. */
  lemma ConversionFirst(kind: Kind, ps: seq<Piece>, args: seq<Arg>)
    requires args != [] && Ready(Conversion(kind), args) && Fits(ps, args[1..])
    ensures Fits([Conversion(kind)] + ps, args)
    ensures Render([Conversion(kind)] + ps, args) == Show(args[0]) + Render(ps, args[1..])
  {
    assert ([Conversion(kind)] + ps)[1..] == ps;
  }

  lemma ConcatText(t: string, p: seq<Piece>, q: seq<Piece>, args: seq<Arg>)
    requires Fits(p, args) && Fits(q, args[Asked(p)..]) && Fits(p + q, args)
    requires Render(p + q, args) == Render(p, args) + Render(q, args[Asked(p)..])
    ensures Fits(([Text(t)] + p) + q, args)
    ensures Render(([Text(t)] + p) + q, args) == (t + Render(p, args)) + Render(q, args[Asked(p)..])
  {
    TextFirst(t, p + q, args);
    Regroup([Text(t)], p, q);
    Regroup(t, Render(p, args), Render(q, args[Asked(p)..]));
  }

  lemma ConcatConversion(kind: Kind, p: seq<Piece>, q: seq<Piece>, args: seq<Arg>)
    requires args != [] && Ready(Conversion(kind), args)
    requires var left := args[1..];
      && Fits(p, left) && Fits(q, left[Asked(p)..]) && Fits(p + q, left)
      && Render(p + q, left) == Render(p, left) + Render(q, left[Asked(p)..])
    ensures Fits(([Conversion(kind)] + p) + q, args)
    ensures Render(([Conversion(kind)] + p) + q, args)
         == (Show(args[0]) + Render(p, args[1..])) + Render(q, args[1..][Asked(p)..])
  {
    ConversionFirst(kind, p + q, args);
    Regroup([Conversion(kind)], p, q);
    Regroup(Show(args[0]), Render(p, args[1..]), Render(q, args[1..][Asked(p)..]));
  }

  /** Arguments are consumed in order: what follows gets what is left over. */
  lemma {:induction false} RenderConcat(p: seq<Piece>, q: seq<Piece>, args: seq<Arg>)
    requires Fits(p, args) && Fits(q, args[Asked(p)..])
    ensures Fits(p + q, args)
    ensures Render(p + q, args) == Render(p, args) + Render(q, args[Asked(p)..])
    decreases |p|, 1
  {
    if p == [] {
      assert p + q == q && args[0..] == args;
    } else if p[0].Text? {
      RenderConcatText(p, q, args);
    } else {
      RenderConcatConversion(p, q, args);
    }
  }

  lemma {:induction false} RenderConcatText(p: seq<Piece>, q: seq<Piece>, args: seq<Arg>)
    requires p != [] && p[0].Text? && Fits(p, args) && Fits(q, args[Asked(p)..])
    ensures Fits(p + q, args)
    ensures Render(p + q, args) == Render(p, args) + Render(q, args[Asked(p)..])
    decreases |p|, 0
  {
    assert args[0..] == args && p == [p[0]] + p[1..];
    RenderConcat(p[1..], q, args);
    ConcatText(p[0].t, p[1..], q, args);
  }

  lemma {:induction false} RenderConcatConversion(p: seq<Piece>, q: seq<Piece>, args: seq<Arg>)
    requires p != [] && p[0].Conversion? && Fits(p, args) && Fits(q, args[Asked(p)..])
    ensures Fits(p + q, args)
    ensures Render(p + q, args) == Render(p, args) + Render(q, args[Asked(p)..])
    decreases |p|, 0
  {
    assert args[1..][Asked(p[1..])..] == args[Asked(p)..] && p == [p[0]] + p[1..];
    RenderConcat(p[1..], q, args[1..]);
    ConcatConversion(p[0].kind, p[1..], q, args);
  }

  /** Arguments beyond those asked for are never looked at. */
  lemma {:induction false} ExtraArgumentsAreIgnored(ps: seq<Piece>, args: seq<Arg>, more: seq<Arg>)
    requires Fits(ps, args)
    ensures Fits(ps, args + more) && Render(ps, args + more) == Render(ps, args)
    decreases |ps|
  {
    if ps == [] {
    } else {
      var t := Taken(ps[0]);
      assert (args + more)[t..] == args[t..] + more;
      ExtraArgumentsAreIgnored(ps[1..], args[t..], more);
    }
  }

  /** Does `fmt` end between the characters of one piece? */
  predicate Complete(fmt: string)
    decreases |fmt|
  {
    fmt == [] || (fmt != "%" && fmt != "%l" && Complete(fmt[First(fmt).1..]))
  }

  /** Formats compose where the first one is complete. */
  lemma {:induction false} PiecesConcat(f: string, g: string)
    requires Complete(f)
    ensures Pieces(f + g) == Pieces(f) + Pieces(g)
    decreases |f|
  {
    if f == [] {
      assert f + g == g;
    } else {
      var n := First(f).1;
      FirstConcat(f, g);
      assert (f + g)[n..] == f[n..] + g;
      PiecesConcat(f[n..], g);
    }
  }

  lemma FirstConcat(f: string, g: string)
    requires f != [] && f != "%" && f != "%l"
    ensures First(f + g) == First(f)
  {
    assert (f + g)[..1] == f[..1];
    if f[0] == '%' {
      assert |f| > 1 && (f + g)[1] == f[1] && (f + g)[..2] == f[..2];
      if f[1] == 'l' {
        assert |f| > 2 && (f + g)[2] == f[2] && (f + g)[..3] == f[..3];
      }
    }
  }

  /** Composition of whole calls: the second format takes up the arguments where
      the first one stops. */
  lemma FormatsCompose(f: string, g: string, args: seq<Arg>)
    requires Complete(f) && Fits(Pieces(f), args) && Fits(Pieces(g), args[Asked(Pieces(f))..])
    ensures Fits(Pieces(f + g), args)
    ensures Render(Pieces(f + g), args)
         == Render(Pieces(f), args) + Render(Pieces(g), args[Asked(Pieces(f))..])
  {
    PiecesConcat(f, g);
    RenderConcat(Pieces(f), Pieces(g), args);
  }

  /** A string with every percent sign doubled. */
  function Doubled(s: string): string {
    if s == [] then [] else (if s[0] == '%' then "%%" else s[..1]) + Doubled(s[1..])
  }

  /** Doubling is the escape: such a format asks for nothing and prints the
      original string. */
  lemma {:induction false} DoubledPrintsOriginal(s: string)
    ensures Complete(Doubled(s)) && Asked(Pieces(Doubled(s))) == 0
    ensures Fits(Pieces(Doubled(s)), []) && Render(Pieces(Doubled(s)), []) == s
  {
    if s == [] {
    } else {
      DoubledPrintsOriginal(s[1..]);
      var d := Doubled(s);
      assert First(d).0 == Text(s[..1]);
      assert d[First(d).1..] == Doubled(s[1..]);
      assert Pieces(d)[1..] == Pieces(Doubled(s[1..]));
      assert s == s[..1] + s[1..];
    }
  }

  /** A format that is a single piece. */
  lemma SinglePiece(fmt: string, piece: Piece, args: seq<Arg>)
    requires fmt != [] && First(fmt) == (piece, |fmt|) && Ready(piece, args)
    ensures Pieces(fmt) == [piece] && Fits(Pieces(fmt), args) && Render(Pieces(fmt), args) == Shown(piece, args)
  {
    assert fmt[|fmt|..] == [] && Pieces(fmt) == [piece] && [piece][1..] == [];
  }

  /** What each conversion makes of its argument. */
  lemma ConversionsPrint(v: nat, n: int, s: string)
    requires v < ULONG_MODULUS && INT_MIN <= n <= INT_MAX && CStr(s)
    ensures Fits(Pieces("%lu"), [ULong(v)]) && Render(Pieces("%lu"), [ULong(v)]) == Digits(v)
    ensures Fits(Pieces("%d"), [Int(n)])
    ensures Render(Pieces("%d"), [Int(n)]) == if n < 0 then "-" + Digits(-n) else Digits(n)
    ensures Fits(Pieces("%s"), [Str(Some(s))]) && Render(Pieces("%s"), [Str(Some(s))]) == s
    ensures Fits(Pieces("%s"), [Str(None)]) && Render(Pieces("%s"), [Str(None)]) == "(null)"
  {
    SinglePiece("%lu", Conversion(UnsignedLong), [ULong(v)]);
    SinglePiece("%d", Conversion(SignedInt), [Int(n)]);
    SinglePiece("%s", Conversion(CString), [Str(Some(s))]);
    SinglePiece("%s", Conversion(CString), [Str(None)]);
  }

  /** What is not a conversion prints itself, except that a doubled percent sign prints
      one and a percent sign at the very end prints nothing. */
  lemma OthersPrintThemselves(c: char)
    ensures c != '%' ==> Fits(Pieces([c]), []) && Render(Pieces([c]), []) == [c]
    ensures c !in "lds%" ==> Fits(Pieces(['%', c]), []) && Render(Pieces(['%', c]), []) == ['%', c]
    ensures c != 'u' ==> Fits(Pieces(['%', 'l', c]), []) && Render(Pieces(['%', 'l', c]), []) == ['%', 'l', c]
    ensures Fits(Pieces("%%"), []) && Render(Pieces("%%"), []) == "%"
    ensures Fits(Pieces("%l"), []) && Render(Pieces("%l"), []) == "%l"
    ensures Fits(Pieces("%"), []) && Render(Pieces("%"), []) == ""
  {
    assert [c][..1] == [c] && ['%', c][..2] == ['%', c] && ['%', 'l', c][..3] == ['%', 'l', c];
    if c != '%' { SinglePiece([c], Text([c]), []); }
    if c !in "lds%" { SinglePiece(['%', c], Text(['%', c]), []); }
    if c != 'u' { SinglePiece(['%', 'l', c], Text(['%', 'l', c]), []); }
    SinglePiece("%%", Text("%"), []);
    SinglePiece("%l", Text("%l"), []);
    SinglePiece("%", Text(""), []);
  }

  /** Any text, with its percent signs doubled, followed by any format that takes one
      argument: the text, then what that format prints. */
  lemma TitledArgument(title: string, fmt: string, a: Arg)
    requires Fits(Pieces(fmt), [a])
    ensures Fits(Pieces(Doubled(title) + fmt), [a])
    ensures Render(Pieces(Doubled(title) + fmt), [a]) == title + Render(Pieces(fmt), [a])
  {
    var d, args := Doubled(title), [a];
    DoubledPrintsOriginal(title);
    ExtraArgumentsAreIgnored(Pieces(d), [], args);
    assert [] + args == args && args[0..] == args;
    FormatsCompose(d, fmt, args);
  }

  /** The report's own lines: a text, then the numeral that parses back. */
  lemma TitledNumber(title: string, v: nat)
    requires v < ULONG_MODULUS
    ensures Fits(Pieces(Doubled(title) + "%lu"), [ULong(v)])
    ensures Render(Pieces(Doubled(title) + "%lu"), [ULong(v)]) == title + Digits(v)
  {
    ConversionsPrint(v, 0, "");
    TitledArgument(title, "%lu", ULong(v));
  }

  // ----- the loop over the characters -----

  /** The character under the cursor: the terminator at the end, and nothing
      beyond it can be read. */
  function At(s: string, i: nat): char
    requires i <= |s|
  {
    if i < |s| then s[i] else NUL
  }

  lemma OnlyTheEndIsNul(s: string, i: nat)
    requires CStr(s) && i <= |s|
    ensures At(s, i) == NUL <==> i == |s|
  {
  }

  method PutString(console: Console, s: string)
    requires CStr(s)
    modifies console
    ensures console.out == old(console.out) + s
  {
    var i := 0;
    while At(s, i) != NUL
      invariant 0 <= i <= |s| && console.out == old(console.out) + s[..i]
      decreases |s| - i
    {
      console.PutChar(At(s, i));
      i := i + 1;
    }
  }

  /** `done` has been printed of `all`, and `rest` with `args` is what is left. */
  ghost predicate Remains(all: string, done: string, rest: string, args: seq<Arg>) {
    Fits(Pieces(rest), args) && all == done + Render(Pieces(rest), args)
  }

  lemma Advance(all: string, done: string, rest: string, args: seq<Arg>)
    requires rest != [] && Remains(all, done, rest, args)
    ensures Ready(First(rest).0, args)
    ensures Remains(all, done + Shown(First(rest).0, args), rest[First(rest).1..], args[Taken(First(rest).0)..])
  {
    assert Pieces(rest)[1..] == Pieces(rest[First(rest).1..]);
  }

  /** Prints the piece that begins with the percent sign at `start`, and says where
      the next one begins and how many arguments were taken. */
  method PrintConversion(console: Console, fmt: string, start: nat, args: seq<Arg>)
    returns (next: nat, taken: nat)
    requires CStr(fmt) && start < |fmt| && fmt[start] == '%' && Ready(First(fmt[start..]).0, args)
    modifies console
    ensures next == start + First(fmt[start..]).1 && taken == Taken(First(fmt[start..]).0)
    ensures console.out == old(console.out) + Shown(First(fmt[start..]).0, args)
  {
    ghost var rest := fmt[start..];
    var i := start + 1;
    taken := 0;
    var c := At(fmt, i);
    if c == 'l' {
      next, taken := PrintLong(console, fmt, start, args);
      return;
    } else if c == 'd' {
      console.PrintInt(args[0].n);
      taken := 1;
    } else if c == 's' {
      var s := match args[0].s case None => "(null)" case Some(s) => s;
      PutString(console, s);
      taken := 1;
    } else if c == '%' {
      console.PutChar('%');
    } else if c == NUL {
      return i, 0;
    } else {
      console.PutChar('%');
      console.PutChar(c);
      assert rest[..2] == ['%', c];
    }
    next := i + 1;
  }

  /** The case of an `l` after the percent sign. */
  method PrintLong(console: Console, fmt: string, start: nat, args: seq<Arg>)
    returns (next: nat, taken: nat)
    requires CStr(fmt) && start + 1 < |fmt| && fmt[start] == '%' && fmt[start + 1] == 'l'
    requires Ready(First(fmt[start..]).0, args)
    modifies console
    ensures next == start + First(fmt[start..]).1 && taken == Taken(First(fmt[start..]).0)
    ensures console.out == old(console.out) + Shown(First(fmt[start..]).0, args)
  {
    ghost var rest := fmt[start..];
    var i := start + 2;
    if At(fmt, i) == 'u' {
      console.PrintUnsignedLong(args[0].val);
      return i + 1, 1;
    }
    console.PutChar('%');
    console.PutChar('l');
    if At(fmt, i) == NUL { return i, 0; }
    console.PutChar(At(fmt, i));
    assert rest[..3] == ['%', 'l', fmt[i]];
    return i + 1, 0;
  }

  /** One turn of the loop: a character that stands for itself, or a conversion. */
  method PrintPiece(console: Console, fmt: string, start: nat, args: seq<Arg>)
    returns (next: nat, taken: nat)
    requires CStr(fmt) && start < |fmt| && Ready(First(fmt[start..]).0, args)
    modifies console
    ensures next == start + First(fmt[start..]).1 && taken == Taken(First(fmt[start..]).0)
    ensures console.out == old(console.out) + Shown(First(fmt[start..]).0, args)
  {
    if At(fmt, start) != '%' {
      console.PutChar(At(fmt, start));
      return start + 1, 0;
    }
    next, taken := PrintConversion(console, fmt, start, args);
  }

  lemma NothingLeft(all: string, done: string, rest: string, args: seq<Arg>)
    requires rest == [] && Remains(all, done, rest, args)
    ensures all == done
  {
  }

  method Printf(console: Console, fmt: string, args: seq<Arg>)
    requires CStr(fmt) && Fits(Pieces(fmt), args)
    modifies console
    ensures console.out == old(console.out) + Render(Pieces(fmt), args)
  {
    var i, k := 0, 0;
    ghost var all, rest, left := console.out + Render(Pieces(fmt), args), fmt, args;
    OnlyTheEndIsNul(fmt, 0);
    while At(fmt, i) != NUL
      invariant 0 <= i <= |fmt| && 0 <= k <= |args| && rest == fmt[i..] && left == args[k..]
      invariant Remains(all, console.out, rest, left)
      invariant At(fmt, i) == NUL <==> i == |fmt|
      decreases |fmt| - i
    {
      Advance(all, console.out, rest, left);
      ghost var piece, n := First(rest).0, First(rest).1;
      var next, taken := PrintPiece(console, fmt, i, args[k..]);
      rest, left := rest[n..], left[Taken(piece)..];
      i, k := next, k + taken;
      OnlyTheEndIsNul(fmt, i);
    }
    NothingLeft(all, console.out, rest, left);
  }
}
