/** The catalogue search page of src/layouts/SearhBooksPage/SearchBooksPage.tsx:
    the handlers that rewrite the page's search state, the choice of query
    that the fetch effect issues, the copy of the response into the book
    list, and the arithmetic of the "first to last of total" line. */
module SearchBooksPage {
  import opened Wrappers
  import opened JsString

  // ---------------------------------------------------------------------
  // Constants and URLs
  // ---------------------------------------------------------------------

  /** `booksPerPage`: state that is never set after its initial value. */
  const BooksPerPage: int := 5

  const TitleMarker: string := "/search/findByTitleContainingIgnoreCase"
  const CategoryMarker: string := "/search/findByCategory"
  /** The tail of the title and category URLs; `5` is `booksPerPage`. */
  const PageSuffix: string := "&page=<pageNumber>&size=5"
  /** The URL the category handler stores for an unrecognised value. */
  const AllUrl: string := "?page=<pageNumber>&size=5"
  /** The label of the category dropdown before any choice. */
  const DefaultCategoryLabel: string := "Book category"

  /** The URL `searchHandleChange` stores for a non-empty search box. */
  function TitleUrl(search: string): (url: string)
    ensures Includes(url, TitleMarker) && Includes(url, "title=" + search)
  {
    var url := TitleMarker + "?title=" + search + PageSuffix;
    assert url == TitleMarker + ("?title=" + search + PageSuffix);
    IncludesPrefix(TitleMarker, "?title=" + search + PageSuffix);
    assert url == (TitleMarker + "?") + ("title=" + search) + PageSuffix;
    IncludesInfix(TitleMarker + "?", "title=" + search, PageSuffix);
    url
  }

  /** The URL `categoryField` stores for a recognised category. */
  function CategoryUrl(value: string): (url: string)
    ensures Includes(url, CategoryMarker)
  {
    var url := CategoryMarker + "?category=" + value + PageSuffix;
    assert url == CategoryMarker + ("?category=" + value + PageSuffix);
    IncludesPrefix(CategoryMarker, "?category=" + value + PageSuffix);
    url
  }

  /** The four categories `categoryField` recognises, compared after lower-casing. */
  predicate IsKnownCategory(value: string)
  {
    var v := ToLower(value);
    v == "front-end" || v == "back-end" || v == "data" || v == "devops"
  }

  // ---------------------------------------------------------------------
  // The regular expression /category=([^&]+)/
  // ---------------------------------------------------------------------

  const CategoryKey: string := "category="

  /** The greedy `[^&]+` run: the longest prefix of `s` without `&`. */
  function UpToAmp(s: string): (r: string)
    ensures |r| <= |s| && r == s[..|r|]
    ensures '&' !in r
    ensures |r| < |s| ==> s[|r|] == '&'
  {
    if s == [] || s[0] == '&' then [] else [s[0]] + UpToAmp(s[1..])
  }

  /** The first capture group of the leftmost match of `category=([^&]+)` in
      `s`, or None when the expression does not match. */
  function CategoryCapture(s: string): (r: Option<string>)
    ensures r.Some? ==> r.value != [] && '&' !in r.value
    decreases |s|
  {
    if |s| <= |CategoryKey| then None
    else if s[..|CategoryKey|] == CategoryKey && s[|CategoryKey|] != '&' then Some(UpToAmp(s[|CategoryKey|..]))
    else CategoryCapture(s[1..])
  }

  /** `categoryMatch ? categoryMatch[1] : ''`. */
  function CapturedCategory(s: string): (c: string)
    ensures '&' !in c
  {
    match CategoryCapture(s)
    case Some(v) => v
    case None => ""
  }

  /** No `c` of `p` can start the key: it is followed inside `p` by a character other than `a`. */
  predicate NoKeyStart(p: string)
  {
    forall i | 0 <= i < |p| :: p[i] == 'c' ==> i + 1 < |p| && p[i + 1] != 'a'
  }

  /** The match cannot begin inside a prefix where the key cannot start. */
  lemma {:induction false} CaptureSkipsPrefix(p: string, t: string)
    requires NoKeyStart(p)
    ensures CategoryCapture(p + t) == CategoryCapture(t)
    decreases |p|
  {
    if p != [] {
      var s := p + t;
      if |s| > |CategoryKey| {
        assert s[..|CategoryKey|] != CategoryKey by {
          if p[0] == 'c' {
            assert s[..|CategoryKey|][1] == p[1] != 'a' == CategoryKey[1];
          } else {
            assert s[..|CategoryKey|][0] == p[0] != 'c' == CategoryKey[0];
          }
        }
        assert CategoryCapture(s) == CategoryCapture(s[1..]);
        assert s[1..] == p[1..] + t;
      }
      assert NoKeyStart(p[1..]) by {
        forall i | 0 <= i < |p[1..]| && p[1..][i] == 'c' ensures i + 1 < |p[1..]| && p[1..][i + 1] != 'a' {
          assert p[i + 1] == 'c';
        }
      }
      CaptureSkipsPrefix(p[1..], t);
    } else {
      assert p + t == t;
    }
  }

  /** The greedy run stops exactly at the `&` that follows an `&`-free value. */
  lemma {:induction false} UpToAmpStopsAtAmp(v: string, rest: string)
    requires '&' !in v
    ensures UpToAmp(v + "&" + rest) == v
    decreases |v|
  {
    if v != [] {
      assert (v + "&" + rest)[1..] == v[1..] + "&" + rest;
      UpToAmpStopsAtAmp(v[1..], rest);
    } else {
      assert (v + "&" + rest)[0] == '&';
    }
  }

  /** Where the key itself starts the string, the capture is the value up to
      the next `&`, or no match when that value is empty. */
  lemma CaptureAfterKey(value: string)
    requires '&' !in value
    ensures CategoryCapture(CategoryKey + value + PageSuffix) == if value == [] then None else Some(value)
  {
    var s := CategoryKey + value + PageSuffix;
    if value == [] {
      assert s == "c" + "ategory=&page=<pageNumber>&size=5";
      assert NoKeyStart("ategory=&page=<pageNumber>&size=5");
      CaptureSkipsPrefix("ategory=&page=<pageNumber>&size=5", "");
      assert "ategory=&page=<pageNumber>&size=5" + "" == s[1..];
    } else {
      var rest := "page=<pageNumber>&size=5";
      assert PageSuffix == "&" + rest;
      assert s == CategoryKey + (value + "&" + rest);
      assert s[..|CategoryKey|] == CategoryKey;
      assert s[|CategoryKey|..] == value + "&" + rest;
      UpToAmpStopsAtAmp(value, "page=<pageNumber>&size=5");
    }
  }

  /** The category URL is the marker and `?` followed by the key, the value and the page suffix. */
  lemma CategoryUrlSplit(value: string)
    ensures CategoryUrl(value) == (CategoryMarker + "?") + (CategoryKey + value + PageSuffix)
  {
    assert CategoryMarker + "?category=" == (CategoryMarker + "?") + CategoryKey;
  }

  /** The capture from the URL shape of `CategoryUrlSplit`. */
  lemma CaptureFromCategoryUrl(value: string)
    requires '&' !in value
    ensures CapturedCategory((CategoryMarker + "?") + (CategoryKey + value + PageSuffix)) == value
  {
    var head := CategoryMarker + "?";
    assert NoKeyStart(head);
    CaptureSkipsPrefix(head, CategoryKey + value + PageSuffix);
    CaptureAfterKey(value);
  }

  /** Round trip: the category read back from a URL built by `categoryField`
      is exactly the value it was built from, for every value without `&`. */
  lemma CategoryRoundTrip(value: string)
    requires '&' !in value
    ensures CapturedCategory(CategoryUrl(value)) == value
  {
    CategoryUrlSplit(value);
    CaptureFromCategoryUrl(value);
  }

  // ---------------------------------------------------------------------
  // Which query the fetch effect issues
  // ---------------------------------------------------------------------

  /** The three catalogue queries, each with a zero-based page and a size. */
  datatype Query =
    | GetBooks(page: int, size: int)
    | SearchBooks(title: string, page: int, size: int)
    | SearchByCategory(category: string, page: int, size: int)

  /** The branch chain at the head of `fetchBooks`. The title marker is
      tested before the category marker, and the title query sends the
      current search box, not the term embedded in the URL. */
  function QueryFor(searchUrl: string, search: string, currentPage: int, booksPerPage: int): (q: Query)
    ensures q.page == currentPage - 1 && q.size == booksPerPage
    ensures q.SearchBooks? <==> Includes(searchUrl, TitleMarker)
    ensures q.SearchBooks? ==> q.title == search
    ensures q.SearchByCategory? <==> !Includes(searchUrl, TitleMarker) && Includes(searchUrl, CategoryMarker)
    ensures q.SearchByCategory? ==> q.category == CapturedCategory(searchUrl)
    ensures searchUrl == "" ==> q == GetBooks(currentPage - 1, booksPerPage)
  {
    if searchUrl == "" then
      assert !Includes(searchUrl, TitleMarker) && !Includes(searchUrl, CategoryMarker);
      GetBooks(currentPage - 1, booksPerPage)
    else if Includes(searchUrl, TitleMarker) then SearchBooks(search, currentPage - 1, booksPerPage)
    else if Includes(searchUrl, CategoryMarker) then SearchByCategory(CapturedCategory(searchUrl), currentPage - 1, booksPerPage)
    else GetBooks(currentPage - 1, booksPerPage)
  }

  /** The URL `searchHandleChange` stores for the search box `search`. */
  function SearchUrlFor(search: string): (url: string)
    ensures search == "" ==> url == ""
    ensures search != "" ==> Includes(url, TitleMarker) && Includes(url, "title=" + search)
  {
    if search == "" then "" else TitleUrl(search)
  }

  /** The label and the URL `categoryField` stores for `value`: a recognised
      value is kept as the label and can be read back from a URL that only
      the category branch of the fetch accepts; any other value gives the
      label `All` and a URL that neither search branch accepts. */
  function CategoryChoice(value: string): (choice: (string, string))
    ensures IsKnownCategory(value) ==>
      && choice.0 == value
      && Includes(choice.1, CategoryMarker) && !Includes(choice.1, TitleMarker)
      && CapturedCategory(choice.1) == value
    ensures !IsKnownCategory(value) ==>
      && choice.0 == "All"
      && !Includes(choice.1, CategoryMarker) && !Includes(choice.1, TitleMarker)
  {
    if IsKnownCategory(value) then
      KnownCategoryChars(value);
      CategoryUrlMarkers(value);
      CategoryRoundTrip(value);
      (value, CategoryUrl(value))
    else
      AllUrlMarkers();
      ("All", AllUrl)
  }

  /** A recognised category has no `&` and no `I` in it. */
  lemma KnownCategoryChars(value: string)
    requires IsKnownCategory(value)
    ensures '&' !in value && 'I' !in value && '/' !in value
  {
    var v := ToLower(value);
    forall k | 0 <= k < |value| ensures value[k] != '&' && value[k] != 'I' && value[k] != '/' {
      assert v[k] == LowerChar(value[k]);
      assert v[k] in v;
    }
  }

  /** After the title search, the fetch sends the box's current text on page 0. */
  lemma TitleSearchQuery(searched: string, typed: string)
    requires searched != ""
    ensures QueryFor(SearchUrlFor(searched), typed, 1, BooksPerPage) == SearchBooks(typed, 0, BooksPerPage)
  {
  }

  /** A recognised category's URL holds the category marker but not the
      title marker, because no recognised category contains an `I`. */
  lemma CategoryUrlMarkers(value: string)
    requires IsKnownCategory(value)
    ensures Includes(CategoryUrl(value), CategoryMarker)
    ensures !Includes(CategoryUrl(value), TitleMarker)
  {
    KnownCategoryChars(value);
    NoTitleMarker(value);
  }

  /** The category URL of an `I`-free value has no `I`, so it cannot include
      the title marker. */
  lemma NoTitleMarker(value: string)
    requires 'I' !in value
    ensures !Includes(CategoryUrl(value), TitleMarker)
  {
    var head := CategoryMarker + "?category=";
    assert CategoryUrl(value) == head + value + PageSuffix;
    assert 'I' !in head && 'I' !in PageSuffix;
    MissingFromConcat(head, value, PageSuffix, 'I');
    assert 'I' in TitleMarker by { assert TitleMarker[29] == 'I'; }
    MissingCharExcludes(head + value + PageSuffix, TitleMarker, 'I');
  }

  /** The URL stored for an unrecognised category holds neither marker. */
  lemma AllUrlMarkers()
    ensures !Includes(AllUrl, TitleMarker) && !Includes(AllUrl, CategoryMarker)
  {
    assert '/' !in AllUrl;
    assert TitleMarker[0] == '/' && CategoryMarker[0] == '/';
    MissingCharExcludes(AllUrl, TitleMarker, '/');
    MissingCharExcludes(AllUrl, CategoryMarker, '/');
  }

  /** After a category choice, the fetch asks for that category on page 0
      when it is recognised, and for the unfiltered catalogue otherwise. */
  lemma CategoryQuery(value: string, typed: string)
    ensures QueryFor(CategoryChoice(value).1, typed, 1, BooksPerPage)
      == if IsKnownCategory(value) then SearchByCategory(value, 0, BooksPerPage) else GetBooks(0, BooksPerPage)
  {
  }

  // ---------------------------------------------------------------------
  // The result line and the list
  // ---------------------------------------------------------------------

  /** `indexOfFirstBook`, computed as the source does from `indexOfLastBook`. */
  function IndexOfFirstBook(currentPage: int, booksPerPage: int): (first: int)
    ensures first == (currentPage - 1) * booksPerPage
  {
    var indexOfLastBook := currentPage * booksPerPage;
    indexOfLastBook - booksPerPage
  }

  /** `lastItem`: the end of the page, cut at the total. */
  function LastItem(currentPage: int, booksPerPage: int, total: int): (last: int)
    ensures last <= total && last <= currentPage * booksPerPage
    ensures last == total || last == currentPage * booksPerPage
  {
    if booksPerPage * currentPage <= total then booksPerPage * currentPage else total
  }

  /** The line "first+1 to last of total" never runs past the total and
      never spans more than one page; on a page that starts inside the
      result set it names at least one item. */
  lemma RangeBounds(currentPage: int, booksPerPage: int, total: int)
    requires booksPerPage > 0
    ensures var first, last := IndexOfFirstBook(currentPage, booksPerPage), LastItem(currentPage, booksPerPage, total);
      && last <= total
      && last - first <= booksPerPage
      && (first < total ==> first + 1 <= last)
  {
  }

  datatype Book = Book(id: int, title: string, author: string, description: string,
                       copies: int, copiesAvailable: int, category: string, img: string)

  /** The `_embedded.books` and `page` parts of a catalogue response. */
  datatype BookPage = BookPage(books: seq<Book>, totalElements: int, totalPages: int)

  /** The loop that copies every response entry, field by field, into `loadedBooks`. */
  method LoadBooks(responseData: seq<Book>) returns (loadedBooks: seq<Book>)
    ensures |loadedBooks| == |responseData|
    ensures forall i | 0 <= i < |responseData| :: loadedBooks[i] == responseData[i]
  {
    loadedBooks := [];
    var key := 0;
    while key < |responseData|
      invariant 0 <= key <= |responseData|
      invariant loadedBooks == responseData[..key]
    {
      var b := responseData[key];
      loadedBooks := loadedBooks + [Book(b.id, b.title, b.author, b.description,
                                         b.copies, b.copiesAvailable, b.category, b.img)];
      key := key + 1;
    }
  }

  /** The "first to last of total" line shown above the list. */
  datatype RangeLine = RangeLine(first: int, last: int, total: int)

  /** What the page renders: the spinner or the error text alone, or the
      search controls with the results below them. */
  datatype SearchView =
    | Loading
    | ErrorText(fault: Fault)
    | Results(range: Option<RangeLine>, list: seq<Book>, pager: bool)

  // ---------------------------------------------------------------------
  // The page and the state its handlers rewrite
  // ---------------------------------------------------------------------

  class SearchPage {
    var books: seq<Book>
    var isLoading: bool
    var httpError: Option<Fault>
    var currentPage: int
    var totalAmountOfBooks: int
    var totalPages: int
    var search: string
    var searchUrl: string
    var categorySelection: string

    constructor ()
      ensures books == [] && isLoading && httpError.None?
      ensures currentPage == 1 && totalAmountOfBooks == 0 && totalPages == 0
      ensures search == "" && searchUrl == "" && categorySelection == DefaultCategoryLabel
    {
      books, isLoading, httpError := [], true, None;
      currentPage, totalAmountOfBooks, totalPages := 1, 0, 0;
      search, searchUrl, categorySelection := "", "", DefaultCategoryLabel;
    }

    /** The search box's `onChange`. */
    method SetSearch(text: string)
      modifies this`search
      ensures search == text
    {
      search := text;
    }

    /** `searchHandleChange`: back to page 1, title URL or none, label reset. */
    method SearchHandleChange()
      modifies this`currentPage, this`searchUrl, this`categorySelection
      ensures currentPage == 1 && categorySelection == DefaultCategoryLabel
      ensures searchUrl == SearchUrlFor(search)
    {
      currentPage := 1;
      if search == "" {
        searchUrl := "";
      } else {
        searchUrl := TitleUrl(search);
      }
      categorySelection := DefaultCategoryLabel;
    }

    /** `categoryField`: back to page 1 with the chosen label and URL. */
    method CategoryField(value: string)
      modifies this`currentPage, this`searchUrl, this`categorySelection
      ensures currentPage == 1
      ensures (categorySelection, searchUrl) == CategoryChoice(value)
    {
      currentPage := 1;
      if IsKnownCategory(value) {
        categorySelection := value;
        searchUrl := CategoryUrl(value);
      } else {
        categorySelection := "All";
        searchUrl := AllUrl;
      }
      assert (categorySelection, searchUrl) == CategoryChoice(value);
    }

    /** `paginate`, handed to the pager. */
    method Paginate(pageNumber: int)
      modifies this`currentPage
      ensures currentPage == pageNumber
    {
      currentPage := pageNumber;
    }

    /** `fetchBooks` and its `catch`, once the request has been answered.
        Returns the query that was issued. */
    method FetchBooks(answer: Reply<BookPage>) returns (issued: Query)
      modifies this`books, this`totalAmountOfBooks, this`totalPages, this`isLoading, this`httpError
      ensures issued == QueryFor(searchUrl, search, currentPage, BooksPerPage)
      ensures !isLoading
      ensures answer.Ok? ==> && books == answer.body.books
                             && totalAmountOfBooks == answer.body.totalElements
                             && totalPages == answer.body.totalPages
                             && httpError == old(httpError)
      ensures answer.Failed? ==> && httpError == Some(answer.fault)
                                 && books == old(books)
                                 && totalAmountOfBooks == old(totalAmountOfBooks)
                                 && totalPages == old(totalPages)
    {
      if searchUrl == "" {
        issued := GetBooks(currentPage - 1, BooksPerPage);
      } else if Includes(searchUrl, TitleMarker) {
        issued := SearchBooks(search, currentPage - 1, BooksPerPage);
      } else if Includes(searchUrl, CategoryMarker) {
        var category := CapturedCategory(searchUrl);
        issued := SearchByCategory(category, currentPage - 1, BooksPerPage);
      } else {
        issued := GetBooks(currentPage - 1, BooksPerPage);
      }
      match answer {
        case Ok(response) =>
          totalAmountOfBooks := response.totalElements;
          totalPages := response.totalPages;
          var loadedBooks := LoadBooks(response.books);
          books := loadedBooks;
          isLoading := false;
        case Failed(f) =>
          isLoading := false;
          httpError := Some(f);
      }
    }

    /** What the page shows: the spinner while loading, then the error if
        one was caught, otherwise the result line and list only when there
        are results, and the pager only when there is more than one page. */
    function View(): (v: SearchView)
      reads this
      ensures isLoading <==> v == Loading
      ensures v.ErrorText? <==> !isLoading && httpError.Some?
      ensures v.Results? ==> (v.range.Some? <==> totalAmountOfBooks > 0)
      ensures v.Results? ==> (v.pager <==> totalPages > 1)
      ensures v.Results? && totalAmountOfBooks > 0 ==> v.list == books
      ensures v.Results? && totalAmountOfBooks <= 0 ==> v.list == []
      ensures v.Results? && v.range.Some? ==> v.range.value.last <= v.range.value.total
    {
      if isLoading then Loading
      else if httpError.Some? then ErrorText(httpError.value)
      else if totalAmountOfBooks > 0 then
        Results(Some(RangeLine(IndexOfFirstBook(currentPage, BooksPerPage) + 1,
                               LastItem(currentPage, BooksPerPage, totalAmountOfBooks),
                               totalAmountOfBooks)),
                books, totalPages > 1)
      else Results(None, [], totalPages > 1)
    }
  }
}
