/** The browser's localStorage, seen one key at a time: a `Slot` holds the document stored
    under its key, already decoded, or nothing when the key is absent. */
module LocalStorage {

  datatype Option<T> = None | Some(value: T)

  /** One localStorage key. `value == None` is `getItem` returning null. */
  class Slot<T> {
    var value: Option<T>

    constructor (initial: Option<T>)
      ensures value == initial
    {
      value := initial;
    }
  }
}
