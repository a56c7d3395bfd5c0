/**
 * The browser's local storage, as a map from keys to stored values. The JSON
 * text the program writes is abstracted into the value it encodes.
 */
module Storage {
  import opened Records

  datatype Stored =
    | Profile(name: string, residence: string)
    | History(records: seq<DailyRecord>)

  class LocalStorage {
    var items: map<string, Stored>

    constructor (initial: map<string, Stored>)
      ensures items == initial
    {
      items := initial;
    }
  }
}
