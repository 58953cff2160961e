/**
  The book records kept by the tracker and the pure list operations its
  handlers use: building a new read book, and `filter(book => book.id !== id)`.
 */
module Books {
  import opened Text

  datatype Option<T> = None | Some(value: T)

  /** Book ids are JavaScript numbers: `Date.now()` for books the user adds,
      small constants for the sample recommendations. */
  type Id = int

  /** A book object. Read books carry a `rating` and no `description`; the
      sample recommendations that go onto the reading list carry a
      `description` and no `rating`. A field the object lacks is `None`. */
  datatype Book = Book(
    id: Id,
    title: string,
    author: string,
    genre: string,
    rating: Option<int>,
    description: Option<string>)

  const UnknownAuthor: string := "Unknown Author"
  const UnknownGenre: string := "Unknown"

  /** `author || 'Unknown Author'`: only the empty string is falsy, so a
      non-empty author (even one made of spaces) is kept as typed. */
  function AuthorOrDefault(author: string): (r: string)
    ensures r != ""
    ensures author != "" ==> r == author
    ensures author == "" ==> r == UnknownAuthor
  {
    if author == "" then UnknownAuthor else author
  }

  /** The object literal `addBook` appends: the title as typed (not
      trimmed), the defaulted author, the form's rating and a fixed genre.
      Built from a non-blank title and a star rating, it is a well-formed
      read book. */
  function NewReadBook(id: Id, title: string, author: string, rating: int): (b: Book)
    ensures b.id == id && b.title == title && b.genre == UnknownGenre
    ensures b.author != "" && (author != "" ==> b.author == author)
    ensures author == "" ==> b.author == UnknownAuthor
    ensures b.rating == Some(rating) && b.description.None?
    ensures !IsBlank(title) && 1 <= rating <= 5 ==> IsReadBook(b)
  {
    Book(id, title, AuthorOrDefault(author), UnknownGenre, Some(rating), None)
  }

  /** What every entry of the read-books list satisfies, given that
      `addBook` is the only way in: a non-blank title, an author, the
      fixed genre, and a star rating from 1 to 5. */
  ghost predicate IsReadBook(b: Book) {
    && !IsBlank(b.title)
    && b.author != ""
    && b.genre == UnknownGenre
    && b.rating.Some? && 1 <= b.rating.value <= 5
    && b.description.None?
  }

  /** Every book carries a whole number of stars from 1 to 5. */
  predicate AllStarRated(books: seq<Book>) {
    forall i :: 0 <= i < |books| ==> books[i].rating.Some? && 1 <= books[i].rating.value <= 5
  }

  ghost predicate AllReadBooks(books: seq<Book>) {
    forall i :: 0 <= i < |books| ==> IsReadBook(books[i])
  }

  /** Appending a well-formed read book keeps the read-books invariant. */
  lemma AppendReadBook(s: seq<Book>, b: Book)
    requires AllReadBooks(s) && IsReadBook(b)
    ensures AllReadBooks(s + [b])
  {
  }

  /** How many entries carry the id. */
  function CountId(s: seq<Book>, id: Id): (n: nat)
    ensures n <= |s|
  {
    if s == [] then 0 else (if s[0].id == id then 1 else 0) + CountId(s[1..], id)
  }

  /** `s.filter(book => book.id !== id)`: the entries whose id differs, in
      their original order. */
  function WithoutId(s: seq<Book>, id: Id): (r: seq<Book>)
    ensures |r| <= |s|
    ensures forall b :: b in r <==> b in s && b.id != id
  {
    if s == [] then []
    else (if s[0].id != id then [s[0]] else []) + WithoutId(s[1..], id)
  }

  /** Filtering a concatenation filters each part and keeps them in order:
      a kept entry that came before another still comes before it. */
  lemma {:induction false} WithoutIdConcat(a: seq<Book>, b: seq<Book>, id: Id)
    ensures WithoutId(a + b, id) == WithoutId(a, id) + WithoutId(b, id)
  {
    if a == [] {
      assert a + b == b;
    } else {
      var head := if a[0].id != id then [a[0]] else [];
      assert (a + b)[0] == a[0];
      assert (a + b)[1..] == a[1..] + b;
      WithoutIdConcat(a[1..], b, id);
      calc {
        WithoutId(a + b, id);
        head + WithoutId(a[1..] + b, id);
        head + (WithoutId(a[1..], id) + WithoutId(b, id));
        (head + WithoutId(a[1..], id)) + WithoutId(b, id);
      }
    }
  }

  /** Exactly the entries with the id are dropped: the length falls by
      their number and none of them is left. */
  lemma {:induction false} WithoutIdCount(s: seq<Book>, id: Id)
    ensures |WithoutId(s, id)| == |s| - CountId(s, id)
    ensures CountId(WithoutId(s, id), id) == 0
  {
    if s != [] {
      WithoutIdCount(s[1..], id);
      var rest := WithoutId(s[1..], id);
      if s[0].id != id {
        assert [s[0]] + rest == WithoutId(s, id);
        assert ([s[0]] + rest)[1..] == rest;
      } else {
        assert [] + rest == rest;
      }
    }
  }

  /** Every entry with another id keeps its multiplicity. */
  lemma {:induction false} WithoutIdKeepsOthers(s: seq<Book>, id: Id)
    ensures forall b: Book :: b.id != id ==> multiset(WithoutId(s, id))[b] == multiset(s)[b]
  {
    if s != [] {
      WithoutIdKeepsOthers(s[1..], id);
      assert s == [s[0]] + s[1..];
      assert multiset(s) == multiset([s[0]]) + multiset(s[1..]);
    }
  }

  /** Removing an id that no entry carries changes nothing. */
  lemma {:induction false} WithoutAbsentId(s: seq<Book>, id: Id)
    requires CountId(s, id) == 0
    ensures WithoutId(s, id) == s
  {
    if s != [] {
      WithoutAbsentId(s[1..], id);
      assert [s[0]] + s[1..] == s;
    }
  }

  /** Removing the same id twice is the same as removing it once. */
  lemma WithoutIdIdempotent(s: seq<Book>, id: Id)
    ensures WithoutId(WithoutId(s, id), id) == WithoutId(s, id)
  {
    WithoutIdCount(s, id);
    WithoutAbsentId(WithoutId(s, id), id);
  }

  /** Removals of two ids commute. */
  lemma {:induction false} WithoutIdCommutes(s: seq<Book>, x: Id, y: Id)
    ensures WithoutId(WithoutId(s, x), y) == WithoutId(WithoutId(s, y), x)
  {
    if s != [] {
      WithoutIdCommutes(s[1..], x, y);
      var h := [s[0]];
      WithoutIdConcat(if s[0].id != x then h else [], WithoutId(s[1..], x), y);
      WithoutIdConcat(if s[0].id != y then h else [], WithoutId(s[1..], y), x);
    }
  }

  /** Appending an entry adds one to the count of its id, whether or not
      the id was already present: appending never rejects a duplicate. */
  lemma {:induction false} CountIdAppend(s: seq<Book>, b: Book)
    ensures CountId(s + [b], b.id) == CountId(s, b.id) + 1
  {
    if s == [] {
      assert s + [b] == [b];
    } else {
      assert (s + [b])[1..] == s[1..] + [b];
      CountIdAppend(s[1..], b);
    }
  }

  /** Filtering keeps the read-books invariant: it only drops entries. */
  lemma WithoutIdKeepsReadBooks(s: seq<Book>, id: Id)
    requires AllReadBooks(s)
    ensures AllReadBooks(WithoutId(s, id))
  {
  }
}
