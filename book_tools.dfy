/** The Google Books tools: the volume search with its genre filter and the details of one
    volume, over the answers of the Books endpoints they call. */
module BookTools {
  import opened Wrappers
  import opened Text
  import opened JsonValue
  import opened ToolCommon

  const BooksKeyMissing := "Google Books API key not configured. Please set GOOGLE_BOOKS_API_KEY in your environment variables."
  /** The search asks the endpoint for eight volumes and shows at most the first five. */
  const SearchPageSize: nat := 8
  const NoDescription := "No description available."
  /** The search cuts a description to 300 characters when it parses it ... */
  const ParsedDescriptionLimit: nat := 300
  /** ... and to 200 more when it formats it. */
  const ShownDescriptionLimit: nat := 200

  /** The `imageLinks` object of a volume. */
  datatype ImageLinks = ImageLinks(thumbnail: Field<string>)

  /** The `volumeInfo` object of a volume, one `Field` per key the tools read. */
  datatype VolumeInfo = VolumeInfo(
    title: Field<string>,
    authors: Field<seq<string>>,
    publishedDate: Field<string>,
    categories: Field<seq<string>>,
    description: Field<string>,
    averageRating: Field<real>,
    imageLinks: Field<ImageLinks>,
    previewLink: Field<string>,
    infoLink: Field<string>,
    pageCount: Field<int>,
    publisher: Field<string>)

  /** One volume as the endpoints return it. */
  datatype Volume = Volume(volumeInfo: Field<VolumeInfo>)

  /** `{}`: the volume information read when the key is missing. */
  const NoInfo := VolumeInfo(Absent, Absent, Absent, Absent, Absent, Absent, Absent, Absent, Absent, Absent, Absent)

  /** The body of a search answer: its `items` key. */
  datatype VolumeList = VolumeList(items: Field<seq<Volume>>)

  /** The parameters of a search request. */
  datatype BookQuery = BookQuery(query: string, maxResults: nat)

  /** The record the search tool's `_parse_book_data` builds. */
  datatype Book = Book(
    title: Value,
    authors: Option<seq<string>>,
    publishedYear: string,
    genre: string,
    description: string,
    rating: Value,
    imageUrl: Option<string>,
    previewUrl: Value)

  /** The record the details tool's `_parse_book_data` builds. */
  datatype BookDetails = BookDetails(
    title: Value,
    authors: Option<seq<string>>,
    publishedYear: string,
    genre: string,
    description: Value,
    rating: Value,
    pageCount: Value,
    publisher: Value,
    imageUrl: Value)

  // ---------------------------------------------------------------------------------------
  // Reading the volume information

  /** `book_data.get('volumeInfo', {})` when that is not `None`. */
  function Info(volume: Volume): VolumeInfo {
    match volume.volumeInfo
    case Present(info) => info
    case _ => NoInfo
  }

  /** `d.get(k)` of a text field. */
  function TextValue(f: Field<string>): Value {
    match f
    case Present(s) => Str(s)
    case _ => Null
  }

  /** `volume_info.get('authors', ['Unknown Author'])`; a `None` is kept and breaks the
      formatting later. */
  function Authors(f: Field<seq<string>>): Option<seq<string>> {
    match f
    case Absent => Some(["Unknown Author"])
    case NoneValue => None
    case Present(names) => Some(names)
  }

  /** `', '.join(volume_info.get('categories', ['General']))` when the key is not `None`. */
  function GenreText(f: Field<seq<string>>): string {
    match f
    case Present(names) => Join(names, ", ")
    case _ => "General"
  }

  /** `volume_info.get('description', 'No description available.')` when it is not `None`. */
  function DescriptionText(f: Field<string>): string {
    match f
    case Present(s) => s
    case _ => NoDescription
  }

  /** `volume_info.get('imageLinks', {}).get('thumbnail')` when `imageLinks` is not `None`. */
  function Thumbnail(links: Field<ImageLinks>): Field<string> {
    match links
    case Present(l) => l.thumbnail
    case _ => Absent
  }

  /** The search's image: a non-empty thumbnail with every "http://" turned into "https://". */
  function SecureImage(thumbnail: Field<string>): (url: Option<string>)
    ensures url.Some? <==> thumbnail.Present? && thumbnail.value != ""
  {
    match thumbnail
    case Present(t) => if t != "" then Some(ReplaceAll(t, "http://", "https://")) else None
    case _ => None
  }

  /** `volume_info.get('previewLink') or volume_info.get('infoLink')`. */
  function PreviewUrl(info: VolumeInfo): (url: Value)
    ensures info.previewLink.Present? && info.previewLink.value != "" ==> url == Str(info.previewLink.value)
    ensures !(info.previewLink.Present? && info.previewLink.value != "") ==> url == TextValue(info.infoLink)
  {
    match info.previewLink
    case Present(p) => if p != "" then Str(p) else TextValue(info.infoLink)
    case _ => TextValue(info.infoLink)
  }

  /** The keys whose `None` makes a parse raise in both tools: `volumeInfo` itself,
      `categories` (joined) and `imageLinks` (asked for its thumbnail). */
  predicate BreaksBoth(volume: Volume) {
    volume.volumeInfo.NoneValue? || Info(volume).categories.NoneValue? || Info(volume).imageLinks.NoneValue?
  }

  // ---------------------------------------------------------------------------------------
  // The two parsers

  /** `BookSearchTool._parse_book_data`: `None` exactly when reading the volume raises, and
      otherwise the defaults of the source, the description cut to 300 characters and the
      thumbnail moved to https. */
  function ParseBook(volume: Volume): (book: Option<Book>)
    ensures book.None? <==> BreaksBoth(volume) || Info(volume).description.NoneValue?
    ensures book.Some? ==>
              (var info := Info(volume);
               book.value.title == TextOr(info.title, "Unknown Title")
               && book.value.authors == Authors(info.authors)
               && (info.categories.Absent? ==> book.value.genre == "General")
               && |book.value.description| <= ParsedDescriptionLimit
               && IsPrefix(book.value.description, DescriptionText(info.description))
               && (book.value.rating == Str("N/A") <==> info.averageRating.AsOption().None?)
               && (book.value.imageUrl.Some? <==> Thumbnail(info.imageLinks).Present? && Thumbnail(info.imageLinks).value != ""))
  {
    var info := Info(volume);
    if BreaksBoth(volume) || info.description.NoneValue? then None
    else
      Some(Book(
        TextOr(info.title, "Unknown Title"),
        Authors(info.authors),
        DateYear(info.publishedDate),
        GenreText(info.categories),
        Take(DescriptionText(info.description), ParsedDescriptionLimit),
        match info.averageRating
        case Present(r) => Num(r)
        case _ => Str("N/A"),
        SecureImage(Thumbnail(info.imageLinks)),
        PreviewUrl(info)))
  }

  /** `BookDetailsTool._parse_book_data`: `None` exactly when reading the volume raises; the
      description is kept whole (a `None` one too), the rating rounded to one decimal, and the
      thumbnail taken as it is. */
  function ParseDetails(volume: Volume): (details: Option<BookDetails>)
    ensures details.None? <==> BreaksBoth(volume)
    ensures details.Some? ==>
              (var info := Info(volume);
               details.value.description == TextOr(info.description, NoDescription)
               && details.value.publisher == TextOr(info.publisher, "Unknown")
               && details.value.imageUrl == TextValue(Thumbnail(info.imageLinks))
               && details.value.rating == Rating(info.averageRating))
  {
    var info := Info(volume);
    if BreaksBoth(volume) then None
    else
      Some(BookDetails(
        TextOr(info.title, "Unknown Title"),
        Authors(info.authors),
        DateYear(info.publishedDate),
        GenreText(info.categories),
        TextOr(info.description, NoDescription),
        Rating(info.averageRating),
        IntValue(info.pageCount),
        TextOr(info.publisher, "Unknown"),
        TextValue(Thumbnail(info.imageLinks))))
  }

  /** The two parsers read the same title, authors, year and genre; the search parser fails
      on everything the details parser fails on and on a `None` description besides, and its
      description is the first 300 characters of the details one. */
  lemma ParsersAgree(volume: Volume)
    ensures ParseBook(volume).Some? <==> ParseDetails(volume).Some? && !Info(volume).description.NoneValue?
    ensures ParseBook(volume).Some? ==>
              (var b := ParseBook(volume).value;
               var d := ParseDetails(volume).value;
               b.title == d.title && b.authors == d.authors && b.publishedYear == d.publishedYear
               && b.genre == d.genre
               && d.description == Str(DescriptionText(Info(volume).description))
               && b.description == Take(DescriptionText(Info(volume).description), ParsedDescriptionLimit))
  {
  }

  /** A volume without volume information parses to the defaults of the search tool. */
  lemma ParseEmptyVolume()
    ensures ParseBook(Volume(Absent))
            == Some(Book(Str("Unknown Title"), Some(["Unknown Author"]), "N/A", "General",
                         NoDescription, Str("N/A"), None, Null))
  {
    assert Take(NoDescription, ParsedDescriptionLimit) == NoDescription;
  }

  /** A thumbnail served over http is shown over https; one without "http://" is shown as it
      is. */
  lemma SecureImageScheme(t: string)
    requires t != ""
    ensures IsPrefix("http://", t) ==> IsPrefix("https://", SecureImage(Present(t)).value)
    ensures !Contains(t, "http://") ==> SecureImage(Present(t)) == Some(t)
  {
    if IsPrefix("http://", t) {
      var rest := ReplaceAll(t[|"http://"|..], "http://", "https://");
      assert ReplaceAll(t, "http://", "https://") == "https://" + rest;
    }
    if !Contains(t, "http://") {
      ReplaceAllAbsent(t, "http://", "https://");
    }
  }

  // ---------------------------------------------------------------------------------------
  // Search

  /** `not genre or genre.lower() in book['genre'].lower()`, as a value. */
  function BookGenreFilter(genre: Option<string>): Book -> bool {
    (b: Book) => GenreMatches(b.genre, genre)
  }

  /** The search parser as a value. */
  function ParseOf(): Volume -> Option<Book> {
    (v: Volume) => ParseBook(v)
  }

  /** `data.get('items', [])` when that is not `None`. */
  function Items(items: Field<seq<Volume>>): seq<Volume> {
    match items
    case Present(vs) => vs
    case _ => []
  }

  /** The text of one search result; `show` is Python's `str` of a JSON value. */
  function SearchEntry(show: Value -> string, b: Book): string {
    "Title: " + show(b.title) + "\\n"
    + "Author(s): " + Join(b.authors.GetOr([]), ", ") + "\\n"
    + "Published: " + b.publishedYear + "\\n"
    + "Genre: " + b.genre + "\\n"
    + "Rating: " + show(b.rating) + "/5\\n"
    + "Description: " + Take(b.description, ShownDescriptionLimit) + "...\\n"
    + "Image: " + show(match b.imageUrl case Some(u) => Str(u) case None => Null) + "\\n"
    + "Preview: " + show(b.previewUrl)
  }

  function SearchEntryOf(show: Value -> string): Book -> string {
    (b: Book) => SearchEntry(show, b)
  }

  /** Every book has its list of authors (none of them was `None`). */
  predicate AllHaveAuthors(books: seq<Book>) {
    forall i :: 0 <= i < |books| ==> books[i].authors.Some?
  }

  /** `BookSearchTool._run`: `search` answers the request. The first kept book whose authors
      are `None` makes the formatting raise. */
  function SearchReply(query: string, genre: Option<string>, hasKey: bool,
                       search: BookQuery -> Fetch<VolumeList>, show: Value -> string): Reply
  {
    if !hasKey then Message(BooksKeyMissing)
    else match search(BookQuery(query, SearchPageSize))
      case RequestFailed => Failure("Network error searching books")
      case Fetched(list) =>
        if list.items.NoneValue? then Failure("Error searching books")
        else
          var books := KeepParsed(Limit(Items(list.items), ResultLimit), ParseOf(), BookGenreFilter(genre));
          if books == [] then Message("No books found for query: '" + query + "'")
          else if !AllHaveAuthors(books) then Failure("Error searching books")
          else Message(Join(Map(SearchEntryOf(show), books), EntrySeparator))
  }

  /** The search with its loops. */
  method RunSearch(query: string, genre: Option<string>, hasKey: bool,
                   search: BookQuery -> Fetch<VolumeList>, show: Value -> string) returns (reply: Reply)
    ensures reply == SearchReply(query, genre, hasKey, search, show)
  {
    if !hasKey {
      return Message(BooksKeyMissing);
    }
    var answer := search(BookQuery(query, SearchPageSize));
    if answer.RequestFailed? {
      return Failure("Network error searching books");
    }
    if answer.body.items.NoneValue? {
      return Failure("Error searching books");
    }
    var books := CollectParsed(Limit(Items(answer.body.items), ResultLimit), ParseOf(), BookGenreFilter(genre));
    if books == [] {
      return Message("No books found for query: '" + query + "'");
    }
    var texts := FormatBooks(books, show);
    if texts.None? {
      return Failure("Error searching books");
    }
    reply := Message(Join(texts.value, EntrySeparator));
  }

  /** The formatting loop of the search, which stops at the first book whose authors are
      `None`. */
  method FormatBooks(books: seq<Book>, show: Value -> string) returns (texts: Option<seq<string>>)
    ensures texts.None? <==> !AllHaveAuthors(books)
    ensures texts.Some? ==> texts.value == Map(SearchEntryOf(show), books)
  {
    var done: seq<string> := [];
    for i := 0 to |books|
      invariant AllHaveAuthors(books[..i])
      invariant done == Map(SearchEntryOf(show), books[..i])
    {
      if books[i].authors.None? {
        assert !AllHaveAuthors(books) by {
          assert books[i].authors.None?;
        }
        return None;
      }
      done := done + [SearchEntryOf(show)(books[i])];
    }
    assert books[..|books|] == books;
    texts := Some(done);
  }

  /** A search answered with volumes shows exactly the parsed books of the first five whose
      genre contains the filter, ignoring case, and one of them without authors turns the
      whole answer into an error. */
  lemma SearchShowsMatching(query: string, genre: Option<string>, search: BookQuery -> Fetch<VolumeList>,
                            show: Value -> string)
    requires search(BookQuery(query, SearchPageSize)).Fetched?
    requires search(BookQuery(query, SearchPageSize)).body.items.Present?
    ensures var top := Limit(search(BookQuery(query, SearchPageSize)).body.items.value, ResultLimit);
            var books := KeepParsed(top, ParseOf(), BookGenreFilter(genre));
            (forall b :: b in books ==> GenreMatches(b.genre, genre)
                                        && exists i :: 0 <= i < |top| && i < 5 && ParseBook(top[i]) == Some(b))
            && (forall i :: 0 <= i < |top| && ParseBook(top[i]).Some? && GenreMatches(ParseBook(top[i]).value.genre, genre)
                            ==> ParseBook(top[i]).value in books)
            && (books != [] && !AllHaveAuthors(books)
                ==> SearchReply(query, genre, true, search, show) == Failure("Error searching books"))
  {
    var top := Limit(search(BookQuery(query, SearchPageSize)).body.items.value, ResultLimit);
    KeepParsedSound(top, ParseOf(), BookGenreFilter(genre));
    KeepParsedComplete(top, ParseOf(), BookGenreFilter(genre));
  }

  // ---------------------------------------------------------------------------------------
  // Details

  /** The text of the details answer. */
  function DetailsText(show: Value -> string, d: BookDetails): string {
    "Title: " + show(d.title) + "\\n"
    + "Author(s): " + Join(d.authors.GetOr([]), ", ") + "\\n"
    + "Published: " + d.publishedYear + "\\n"
    + "Genre: " + d.genre + "\\n"
    + "Rating: " + show(d.rating) + "/5\\n"
    + "Pages: " + show(d.pageCount) + "\\n"
    + "Publisher: " + show(d.publisher) + "\\n"
    + "Description: " + show(d.description) + "\\n"
    + "Image: " + show(d.imageUrl)
  }

  /** `BookDetailsTool._run`: `fetch` answers the request for one volume id. */
  function DetailsReply(bookId: string, hasKey: bool, fetch: string -> Fetch<Volume>, show: Value -> string): (reply: Reply)
    ensures !hasKey ==> reply == Message(BooksKeyMissing)
    ensures hasKey && fetch(bookId).Fetched? && BreaksBoth(fetch(bookId).body) ==> reply == Message("Book details not found.")
    ensures reply.Message? && hasKey && fetch(bookId).Fetched? && !BreaksBoth(fetch(bookId).body)
            ==> ParseDetails(fetch(bookId).body).value.authors.Some?
    ensures hasKey && fetch(bookId).Fetched? && !BreaksBoth(fetch(bookId).body)
            && ParseDetails(fetch(bookId).body).value.authors.Some?
            ==> reply == Message(DetailsText(show, ParseDetails(fetch(bookId).body).value))
    ensures hasKey && fetch(bookId).Fetched? && !BreaksBoth(fetch(bookId).body)
            && ParseDetails(fetch(bookId).body).value.authors.None?
            ==> reply == Failure("Error getting book details")
    ensures hasKey && fetch(bookId).RequestFailed? ==> reply == Failure("Network error getting book details")
  {
    if !hasKey then Message(BooksKeyMissing)
    else match fetch(bookId)
      case RequestFailed => Failure("Network error getting book details")
      case Fetched(volume) =>
        match ParseDetails(volume)
        case None => Message("Book details not found.")
        case Some(d) =>
          if d.authors.None? then Failure("Error getting book details")
          else Message(DetailsText(show, d))
  }
}
