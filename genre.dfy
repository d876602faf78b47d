/** The genre type (types/genre.py): a title looked up by genre id, or the
    fields of a genre dict. */
module Genres {
  import opened PyValue
  import ApiClient

  /** The genre titles by id. */
  const TrackGenres: map<int, string> := map[
    1 := "Рок",
    2 := "Поп",
    3 := "Рэп и Хип-хоп",
    4 := "Расслабляющая",
    5 := "House и Танцевальная",
    6 := "Инструментальная",
    7 := "Метал",
    8 := "Дабстеп",
    10 := "Drum & Bass",
    11 := "Транс",
    12 := "Шансон",
    13 := "Этническая",
    14 := "Акустическая",
    15 := "Регги",
    16 := "Классическая",
    17 := "Инди-поп",
    18 := "Другая",
    19 := "Скит",
    21 := "Альтернатива",
    22 := "Электро-поп и Диско",
    1001 := "Джаз и Блюз"
  ]

  const UnknownGenre: string := "Неизвестен"

  datatype GenreRecord = GenreRecord(title: Value, id: Value)

  /** `Genre(genre, genreId)`: a truthy id is looked up (a bool id is the
      int it equals), otherwise "name" and "id" or "genre_id" are read. */
  function Genre(genre: Value, genreId: Value): (r: GenreRecord)
    ensures Truthy(genreId) ==> r.id == genreId
    ensures Truthy(genreId) ==>
              r.title == VStr(match ApiClient.CodeOf(genreId)
                              case Some(n) => if n in TrackGenres then TrackGenres[n] else UnknownGenre
                              case None => UnknownGenre)
    ensures !Truthy(genreId) ==> r.title == Get(genre, "name")
    ensures !Truthy(genreId) ==>
              r.id == (if Truthy(Get(genre, "id")) then Get(genre, "id") else Get(genre, "genre_id"))
  {
    if Truthy(genreId) then
      var code := ApiClient.CodeOf(genreId);
      var title := if code.Some? && code.value in TrackGenres then TrackGenres[code.value] else UnknownGenre;
      GenreRecord(VStr(title), genreId)
    else
      var id := Get(genre, "id");
      GenreRecord(Get(genre, "name"), if Truthy(id) then id else Get(genre, "genre_id"))
  }

  /** The ids of the table: 1 to 22 except 9 and 20, and 1001. */
  lemma TableIds()
    ensures forall n :: n in TrackGenres <==> (1 <= n <= 22 && n != 9 && n != 20) || n == 1001
  {
  }

  /** Any id outside the table, 9 and 20 among them, is titled "Неизвестен". */
  lemma UnknownIdsAreUnknown(n: int)
    requires n != 0 && n !in TrackGenres
    ensures Genre(VNone, VInt(n)) == GenreRecord(VStr(UnknownGenre), VInt(n))
  {
  }
}
