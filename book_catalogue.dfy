/**
 * The book catalogue: `save_books` writes one "title author year" line per
 * book and `load_books` reads lines back, keeping the first, second and last
 * whitespace-separated token of each line. The file is modelled as its
 * sequence of lines.
 */
module BookCatalogue {
  import opened Wrappers
  import opened RustStr
  import opened RustInt
  import opened DecimalText

  datatype Book = Book(title: string, author: string, year: U16)

  /** The line `save_books` writes for a book: `format!("{} {} {}", title, author, year)`. */
  function FormatBook(b: Book): string {
    b.title + " " + b.author + " " + Decimal(b.year)
  }

  /**
   * `save_books`: one line per book, in list order. `writeln!` ends each line
   * with '\n', so reading the file back line by line gives exactly these lines
   * as long as no title or author itself contains '\n'.
   */
  method SaveBooks(books: seq<Book>) returns (lines: seq<string>)
    ensures |lines| == |books|
    ensures forall i :: 0 <= i < |books| ==> lines[i] == FormatBook(books[i])
  {
    lines := [];
    for i := 0 to |books|
      invariant |lines| == i
      invariant forall j :: 0 <= j < i ==> lines[j] == FormatBook(books[j])
    {
      var line := FormatBook(books[i]);
      lines := lines + [line];
    }
  }

  /** What `load_books` makes of one line. */
  datatype LineParse =
    | Blank                       // empty after trimming: skipped
    | Short                       // fewer than three tokens: skipped
    | Parsed(book: Book)          // title, author and year taken from the tokens
    | BadYear(token: string)      // the last token is not a `u16`: `unwrap` panics

  /**
   * One iteration of the `load_books` loop: trim, skip an empty line, split on
   * whitespace, skip a line with fewer than three tokens, and otherwise take
   * token 0 as the title, token 1 as the author and the last token as the year.
   */
  function ParseLine(line: string): LineParse {
    var trimmed := Trim(line);
    if trimmed == [] then Blank
    else
      var parts := Words(trimmed);
      if |parts| >= 3 then
        var yearStr := parts[|parts| - 1];
        match ParseU16(yearStr)
        case Some(year) => Parsed(Book(parts[0], parts[1], year))
        case None => BadYear(yearStr)
      else Short
  }

  /**
   * What a line parses to, in terms of its words: blank exactly when it is all
   * whitespace, skipped exactly when it has one or two words, and otherwise the
   * first word, the second word and the year parsed from the last word, or a
   * year error naming that last word.
   */
  lemma ParseLineMeaning(line: string)
    ensures var p := ParseLine(line);
            var parts := Words(line);
            && (p.Blank? <==> AllWhitespace(line))
            && (p.Short? <==> 1 <= |parts| < 3)
            && (p.Parsed? <==>
                  |parts| >= 3 && ParseU16(parts[|parts| - 1]).Some?)
            && (p.Parsed? ==>
                  && p.book.title == parts[0]
                  && p.book.author == parts[1]
                  && ParseU16(parts[|parts| - 1]) == Some(p.book.year))
            && (p.BadYear? <==> |parts| >= 3 && ParseU16(parts[|parts| - 1]).None?)
            && (p.BadYear? ==> p.token == parts[|parts| - 1])
  {
    TrimEmptyIffNoWords(line);
    WordsOfTrim(line);
    NoWordsIffAllWhitespace(line);
  }

  /** `load_books` panics at the year of line `line`, whose last token is `token`. */
  datatype LoadError = YearParseError(line: nat, token: string)

  /** What the loop makes of each line of a file. */
  function ParseAll(lines: seq<string>): seq<LineParse> {
    seq(|lines|, i requires 0 <= i < |lines| => ParseLine(lines[i]))
  }

  /**
   * The loop of `load_books` over already parsed lines: push the book of every
   * parsed line, skip blank and short lines, and stop at the first bad year.
   */
  function Collect(ps: seq<LineParse>): Result<seq<Book>, LoadError> {
    if ps == [] then Success([])
    else
      match Collect(ps[..|ps| - 1])
      case Failure(e) => Failure(e)
      case Success(books) =>
        match ps[|ps| - 1]
        case Parsed(b) => Success(books + [b])
        case BadYear(t) => Failure(YearParseError(|ps| - 1, t))
        case _ => Success(books)
  }

  /** The outcome of `load_books` on the lines of a file. */
  function Load(lines: seq<string>): Result<seq<Book>, LoadError> {
    Collect(ParseAll(lines))
  }

  /** `load_books`: a loop over the lines that pushes the book of every accepted line. */
  method LoadBooks(lines: seq<string>) returns (r: Result<seq<Book>, LoadError>)
    ensures r == Load(lines)
  {
    ghost var ps := ParseAll(lines);
    var books := [];
    for i := 0 to |lines|
      invariant Collect(ps[..i]) == Success(books)
    {
      assert ps[..i + 1][..i] == ps[..i];
      var p := ParseLine(lines[i]);
      assert p == ps[i];
      if p.Blank? {
        continue;
      }
      if p.BadYear? {
        CollectFailurePersists(ps, i + 1);
        return Failure(YearParseError(i, p.token));
      }
      if p.Parsed? {
        books := books + [p.book];
      }
    }
    assert ps[..|ps|] == ps;
    return Success(books);
  }

  // ---------------------------------------------------------------------------
  // Properties of loading

  /** Once a prefix of the lines fails to load, the whole file fails with the same error. */
  lemma {:induction false} CollectFailurePersists(ps: seq<LineParse>, k: nat)
    requires k <= |ps|
    requires Collect(ps[..k]).Failure?
    ensures Collect(ps) == Collect(ps[..k])
    decreases |ps| - k
  {
    if k < |ps| {
      assert ps[..k + 1][..k] == ps[..k];
      CollectFailurePersists(ps, k + 1);
    } else {
      assert ps[..k] == ps;
    }
  }

  /** Indices of the lines that yield a book, in increasing order. */
  function ParsedIndices(ps: seq<LineParse>): (ix: seq<nat>)
    ensures forall k :: 0 <= k < |ix| ==> ix[k] < |ps| && ps[ix[k]].Parsed?
    ensures forall k, l :: 0 <= k < l < |ix| ==> ix[k] < ix[l]
    ensures forall i :: 0 <= i < |ps| && ps[i].Parsed? ==> i in ix
  {
    if ps == [] then []
    else
      var init := ParsedIndices(ps[..|ps| - 1]);
      if ps[|ps| - 1].Parsed? then init + [|ps| - 1] else init
  }

  /**
   * A successful load keeps exactly the books of the accepted lines, in the
   * order of their lines: book `k` comes from line `ParsedIndices(ps)[k]`.
   * Hence there are never more books than lines.
   */
  lemma {:induction false} CollectKeepsOrder(ps: seq<LineParse>)
    requires Collect(ps).Success?
    ensures var books := Collect(ps).value;
            && |books| == |ParsedIndices(ps)| <= |ps|
            && forall k :: 0 <= k < |books| ==> books[k] == ps[ParsedIndices(ps)[k]].book
  {
    if ps != [] {
      var init := ps[..|ps| - 1];
      assert Collect(init).Success?;
      CollectKeepsOrder(init);
      assert forall i :: 0 <= i < |init| ==> init[i] == ps[i];
    }
  }

  /**
   * Loading fails exactly when some line has three or more tokens and a last
   * token that is not a `u16`, and the error names the first such line.
   */
  lemma {:induction false} CollectFailsIffBadYear(ps: seq<LineParse>)
    ensures Collect(ps).Failure? <==> exists i :: 0 <= i < |ps| && ps[i].BadYear?
    ensures Collect(ps).Failure? ==>
              var i := Collect(ps).error.line;
              && i < |ps|
              && ps[i] == BadYear(Collect(ps).error.token)
              && forall j :: 0 <= j < i ==> !ps[j].BadYear?
  {
    if ps != [] {
      var init := ps[..|ps| - 1];
      CollectFailsIffBadYear(init);
      assert forall i :: 0 <= i < |init| ==> init[i] == ps[i];
    }
  }

  // ---------------------------------------------------------------------------
  // Saving then loading

  /**
   * A formatted line parses back to a book whose title and author are the first
   * two words of "title author"; if the title and author together have fewer
   * than two words the line is skipped. This is a statement about the one line;
   * a field containing '\n' would make `writeln!` split it across two lines.
   */
  lemma FormatThenParse(b: Book)
    ensures var names := Words(b.title) + Words(b.author);
            ParseLine(FormatBook(b)) ==
              if |names| >= 2 then Parsed(Book(names[0], names[1], b.year)) else Short
  {
    FormattedWords(b);
    ParseFromWords(FormatBook(b), Words(b.title) + Words(b.author), b.year);
  }

  /** The words of a formatted line: those of the title, those of the author, then the year. */
  lemma FormattedWords(b: Book)
    ensures Words(FormatBook(b)) == Words(b.title) + Words(b.author) + [Decimal(b.year)]
  {
    var y := Decimal(b.year);
    assert FormatBook(b) == b.title + [' '] + (b.author + [' '] + y);
    WordsAcrossSeparator(b.title, ' ', b.author + [' '] + y);
    WordsAcrossSeparator(b.author, ' ', y);
    assert IsToken(y);
    WordsOfToken(y);
  }

  /** A line whose words are some names followed by a year's decimal text. */
  lemma ParseFromWords(line: string, names: seq<string>, year: U16)
    requires Words(line) == names + [Decimal(year)]
    ensures ParseLine(line) == if |names| >= 2 then Parsed(Book(names[0], names[1], year)) else Short
  {
    var parts := Words(line);
    assert |parts| == |names| + 1 && parts[|names|] == Decimal(year);
    ParseDecimal(year);
    NoWordsIffAllWhitespace(line);
    ParseLineMeaning(line);
    if |names| >= 2 {
      assert parts[0] == names[0] && parts[1] == names[1];
      assert ParseLine(line) == Parsed(Book(names[0], names[1], year));
    } else {
      assert ParseLine(line) == Short;
    }
  }

  /** Lines that all parse to books load as exactly those books, in order. */
  lemma {:induction false} CollectAllParsed(ps: seq<LineParse>, books: seq<Book>)
    requires |ps| == |books|
    requires forall i :: 0 <= i < |ps| ==> ps[i] == Parsed(books[i])
    ensures Collect(ps) == Success(books)
  {
    if ps != [] {
      var n := |ps| - 1;
      CollectAllParsed(ps[..n], books[..n]);
      assert books[..n] + [books[n]] == books;
    }
  }

  /**
   * Saving and loading gives back the same books when every title and every
   * author is a single word.
   */
  lemma SaveLoadRoundTrip(books: seq<Book>, lines: seq<string>)
    requires |lines| == |books|
    requires forall i :: 0 <= i < |books| ==> lines[i] == FormatBook(books[i])
    requires forall i :: 0 <= i < |books| ==> IsToken(books[i].title) && IsToken(books[i].author)
    ensures Load(lines) == Success(books)
  {
    forall i | 0 <= i < |books|
      ensures ParseLine(lines[i]) == Parsed(books[i])
    {
      SingleWordLine(books[i]);
    }
    LoadParsedLines(lines, books);
  }

  /** Lines that each parse to a book load as exactly those books. */
  lemma LoadParsedLines(lines: seq<string>, books: seq<Book>)
    requires |lines| == |books|
    requires forall i :: 0 <= i < |lines| ==> ParseLine(lines[i]) == Parsed(books[i])
    ensures Load(lines) == Success(books)
  {
    CollectAllParsed(ParseAll(lines), books);
  }

  /** A book whose title and author are single words is read back from its line unchanged. */
  lemma SingleWordLine(b: Book)
    requires IsToken(b.title) && IsToken(b.author)
    ensures ParseLine(FormatBook(b)) == Parsed(b)
  {
    FormatThenParse(b);
    WordsOfToken(b.title);
    WordsOfToken(b.author);
  }

  /**
   * The program's own catalogue does not survive the round trip: "George
   * Orwell" comes back as "George", and "To Kill a Mockingbird" by "Harper Lee"
   * comes back as the title "To" by the author "Kill".
   */
  lemma ExampleCatalogueIsLossy()
    ensures Load([FormatBook(Book("1984", "George Orwell", 1949)),
                  FormatBook(Book("To Kill a Mockingbird", "Harper Lee", 1960))])
            == Success([Book("1984", "George", 1949), Book("To", "Kill", 1960)])
  {
    FirstExampleLine();
    SecondExampleLine();
    LoadTwoLines(FormatBook(Book("1984", "George Orwell", 1949)),
                 FormatBook(Book("To Kill a Mockingbird", "Harper Lee", 1960)),
                 Book("1984", "George", 1949), Book("To", "Kill", 1960));
  }

  /** Two lines that each parse to a book load as those two books. */
  lemma LoadTwoLines(l1: string, l2: string, b1: Book, b2: Book)
    requires ParseLine(l1) == Parsed(b1) && ParseLine(l2) == Parsed(b2)
    ensures Load([l1, l2]) == Success([b1, b2])
  {
    LoadParsedLines([l1, l2], [b1, b2]);
  }

  /** "1984 George Orwell 1949" loads as "1984" by "George". */
  lemma FirstExampleLine()
    ensures ParseLine(FormatBook(Book("1984", "George Orwell", 1949))) == Parsed(Book("1984", "George", 1949))
  {
    assert IsToken("1984") && IsToken("George") && IsToken("Orwell");
    assert "George Orwell" == "George" + " " + "Orwell";
    SecondAuthorWordDropped("1984", "George", "Orwell", 1949);
  }

  /** "To Kill a Mockingbird Harper Lee 1960" loads as "To" by "Kill". */
  lemma SecondExampleLine()
    ensures ParseLine(FormatBook(Book("To Kill a Mockingbird", "Harper Lee", 1960)))
            == Parsed(Book("To", "Kill", 1960))
  {
    assert IsToken("To") && IsToken("Kill") && IsWhitespace(' ') by {
      assert IsToken("To") && IsToken("Kill");
    }
    assert "To Kill a Mockingbird" == "To" + " " + "Kill" + " a Mockingbird";
    TwoWordTitle("To", "Kill", " a Mockingbird", "Harper Lee", 1960);
  }

  /** A one-word title with a two-word author loses the author's second word. */
  lemma SecondAuthorWordDropped(t: string, a1: string, a2: string, y: U16)
    requires IsToken(t) && IsToken(a1) && IsToken(a2)
    ensures ParseLine(FormatBook(Book(t, a1 + " " + a2, y))) == Parsed(Book(t, a1, y))
  {
    assert a1 + " " + a2 == a1 + [' '] + a2;
    WordsAcrossSeparator(a1, ' ', a2);
    WordsOfToken(a1);
    WordsOfToken(a2);
    WordsOfToken(t);
    FormatThenParse(Book(t, a1 + " " + a2, y));
  }

  /** A title of two or more words supplies both the loaded title and the loaded author. */
  lemma TitleWordsTakeOver(title: string, author: string, y: U16)
    requires |Words(title)| >= 2
    ensures ParseLine(FormatBook(Book(title, author, y))) == Parsed(Book(Words(title)[0], Words(title)[1], y))
  {
    FormatThenParse(Book(title, author, y));
  }

  /** A token followed by the end of the text or by whitespace is the first word. */
  lemma TokenThenRest(t: string, rest: string)
    requires IsToken(t)
    requires rest == [] || IsWhitespace(rest[0])
    ensures Words(t + rest) == [t] + Words(rest)
  {
    WordsOfToken(t);
    if rest == [] {
      assert t + rest == t;
    } else {
      assert t + rest == t + [rest[0]] + rest[1..];
      WordsAcrossSeparator(t, rest[0], rest[1..]);
      SkipLeadingWhitespace(rest, ' ', []);
    }
  }

  /**
   * A title made of two space-separated words, possibly followed by more after
   * whitespace, loads as its first word by its second.
   */
  lemma TwoWordTitle(t1: string, t2: string, rest: string, author: string, y: U16)
    requires IsToken(t1) && IsToken(t2)
    requires rest == [] || IsWhitespace(rest[0])
    ensures ParseLine(FormatBook(Book(t1 + " " + t2 + rest, author, y))) == Parsed(Book(t1, t2, y))
  {
    LeadingWords(t1, t2, rest);
    TitleWordsTakeOver(t1 + " " + t2 + rest, author, y);
  }

  /**
   * The words of a text that starts with two tokens separated by a space, the
   * second one followed by the end of the text or by whitespace.
   */
  lemma LeadingWords(t1: string, t2: string, rest: string)
    requires IsToken(t1) && IsToken(t2)
    requires rest == [] || IsWhitespace(rest[0])
    ensures Words(t1 + " " + t2 + rest) == [t1, t2] + Words(rest)
  {
    var line, tail := t1 + " " + t2 + rest, t2 + rest;
    assert line == t1 + [' '] + tail;
    WordsAcrossSeparator(t1, ' ', tail);
    WordsOfToken(t1);
    TokenThenRest(t2, rest);
    var w := Words(rest);
    assert Words(line) == [t1] + ([t2] + w);
    ConsTwo(t1, t2, w);
  }

  /** Putting two elements in front one at a time is putting both in front at once. */
  lemma ConsTwo<T>(a: T, b: T, w: seq<T>)
    ensures [a] + ([b] + w) == [a, b] + w
  {
  }
}
