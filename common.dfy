/** Values shared by the components: JavaScript's nullable values and their
    truthiness, the browser's File, and the history record. */
module Common {

  /** A JavaScript value that may be `null`. */
  datatype Option<+T> = None | Some(value: T)

  /** JavaScript truthiness of a `string | null`: `null` and `""` are falsy,
      every other string is truthy. */
  predicate Truthy(s: Option<string>) {
    s.Some? && s.value != ""
  }

  /** The parts of a browser `File` the components look at: its name, its
      MIME type (`File.type`) and its size in bytes. */
  datatype File = File(name: string, mimeType: string, size: nat)

  /** One completed exchange, newest first in the history list. `image` is
      an opaque object URL, `timestamp` a clock reading in milliseconds. */
  datatype QAItem = QAItem(id: string, image: string, question: string, answer: string, timestamp: nat)
}
