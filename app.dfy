/**
  The state of the book-tracker component and its event handlers.

  The component keeps five pieces of state: the read books, the reading
  list, and the add-book form's title, author and rating. Each handler
  replaces some of them with new values; here they are the fields of one
  object and the handlers are its methods. The clock read that supplies a
  new book's id is a parameter of `AddBook`.
 */
module App {
  import opened Text
  import opened Books
  import opened Rating

  /** The star strings drawn next to the read books, one per book, in
      order: picture i is what `renderStars` draws for book i's rating.
      Every read book's rating is a whole number of stars from 1 to 5
      (`Valid()` implies `AllStarRated(books)`), so none of them makes
      `renderStars` throw. */
  function ShelfStars(books: seq<Book>): (pictures: seq<string>)
    requires AllStarRated(books)
    ensures |pictures| == |books|
    ensures forall i :: 0 <= i < |books| ==>
      RenderStars(books[i].rating.value) == Success(pictures[i])
  {
    if books == [] then []
    else
      var rest := books[1..];
      assert forall i :: 0 <= i < |rest| ==> rest[i] == books[i + 1];
      var pictures := [RenderStars(books[0].rating.value).value] + ShelfStars(rest);
      assert forall i :: 1 <= i < |books| ==> pictures[i] == ShelfStars(rest)[i - 1];
      pictures
  }

  /** Each picture on the shelf is five stars showing as many filled stars
      as the book's rating. */
  lemma ShelfStarsShowRatings(books: seq<Book>)
    requires AllStarRated(books)
    ensures forall i :: 0 <= i < |books| ==>
      && |ShelfStars(books)[i]| == 5
      && CountChar(FilledStar, ShelfStars(books)[i]) == books[i].rating.value
  {
    forall i | 0 <= i < |books|
      ensures |ShelfStars(books)[i]| == 5
      ensures CountChar(FilledStar, ShelfStars(books)[i]) == books[i].rating.value
    {
      StarsShowRating(books[i].rating.value);
    }
  }

  class SimpleApp {
    var books: seq<Book>
    var readingList: seq<Book>
    var title: string
    var author: string
    var rating: int

    /** The rating is always a whole number of stars from 1 to 5, and every
        read book came from the add-book form. */
    ghost predicate Valid()
      reads this
    {
      1 <= rating <= 5 && AllReadBooks(books)
    }

    /** The read books can always be drawn: every stored rating is 1 to 5. */
    lemma ValidShelfIsStarRated()
      requires Valid()
      ensures AllStarRated(books)
    {
    }

    /** Both lists start empty, the form blank with five stars. */
    constructor ()
      ensures Valid()
      ensures books == [] && readingList == []
      ensures title == "" && author == "" && rating == 5
    {
      books, readingList := [], [];
      title, author, rating := "", "", 5;
    }

    /** Typing in the title field. */
    method SetTitle(value: string)
      requires Valid()
      modifies this
      ensures Valid()
      ensures title == value
      ensures books == old(books) && readingList == old(readingList)
      ensures author == old(author) && rating == old(rating)
    {
      title := value;
    }

    /** Typing in the author field. */
    method SetAuthor(value: string)
      requires Valid()
      modifies this
      ensures Valid()
      ensures author == value
      ensures books == old(books) && readingList == old(readingList)
      ensures title == old(title) && rating == old(rating)
    {
      author := value;
    }

    /** Clicking one of the five stars of the picker; the picker only
        offers the stars 1 to 5. */
    method PickStar(star: int)
      requires Valid()
      requires 1 <= star <= 5
      modifies this
      ensures Valid()
      ensures rating == star
      ensures books == old(books) && readingList == old(readingList)
      ensures title == old(title) && author == old(author)
    {
      rating := star;
    }

    /** The caption shown under the picker. The rating is never 0 here, so
        "No rating" is never shown; star k shows the k-th caption. */
    function RatingCaption(): (caption: string)
      reads this
      requires Valid()
      ensures caption != NoRating
      ensures caption == Captions[rating]
    {
      StarCaption(rating);
      RatingLabel(rating as real)
    }

    /** The "Add Book" button. A blank title (empty or only whitespace)
        leaves every field as it was. Otherwise one book is appended after
        the existing ones: the title as typed, the author or "Unknown
        Author", genre "Unknown", the current rating and the given id; the
        reading list is untouched and the form is reset to a blank title
        and author and five stars. */
    method AddBook(id: Id)
      requires Valid()
      modifies this
      ensures Valid()
      ensures IsBlank(old(title)) ==> unchanged(this)
      ensures !IsBlank(old(title)) ==>
        && |books| == |old(books)| + 1
        && books[..|old(books)|] == old(books)
        && books[|old(books)|] == NewReadBook(id, old(title), old(author), old(rating))
        && readingList == old(readingList)
        && title == "" && author == "" && rating == 5
    {
      if IsBlank(title) {
        return;
      }
      var book := NewReadBook(id, title, author, rating);
      AppendReadBook(books, book);
      books := books + [book];
      title, author, rating := "", "", 5;
    }

    /** "Add to Reading List": appends the book as given, with no check
        for a book of the same id already on the list. */
    method AddToReadingList(book: Book)
      requires Valid()
      modifies this
      ensures Valid()
      ensures readingList == old(readingList) + [book]
      ensures CountId(readingList, book.id) == CountId(old(readingList), book.id) + 1
      ensures books == old(books)
      ensures title == old(title) && author == old(author) && rating == old(rating)
    {
      CountIdAppend(readingList, book);
      readingList := readingList + [book];
    }

    /** "Remove" on a read book: drops every read book with that id and
        keeps the others in order; with an absent id nothing changes. */
    method RemoveBook(id: Id)
      requires Valid()
      modifies this
      ensures Valid()
      ensures books == WithoutId(old(books), id)
      ensures CountId(books, id) == 0
      ensures CountId(old(books), id) == 0 ==> books == old(books)
      ensures readingList == old(readingList)
      ensures title == old(title) && author == old(author) && rating == old(rating)
    {
      WithoutIdKeepsReadBooks(books, id);
      WithoutIdCount(books, id);
      if CountId(books, id) == 0 {
        WithoutAbsentId(books, id);
      }
      books := WithoutId(books, id);
    }

    /** "Remove" on a reading-list entry: drops every entry with that id
        and keeps the others in order; with an absent id nothing changes. */
    method RemoveFromList(id: Id)
      requires Valid()
      modifies this
      ensures Valid()
      ensures readingList == WithoutId(old(readingList), id)
      ensures CountId(readingList, id) == 0
      ensures CountId(old(readingList), id) == 0 ==> readingList == old(readingList)
      ensures books == old(books)
      ensures title == old(title) && author == old(author) && rating == old(rating)
    {
      WithoutIdCount(readingList, id);
      if CountId(readingList, id) == 0 {
        WithoutAbsentId(readingList, id);
      }
      readingList := WithoutId(readingList, id);
    }
  }
}
