/** An output stream (`std::cout`, `std::wcout`, `std::cerr`) as the text written to it so far. */
module Streams {

  class OutStream {
    var text: string

    constructor ()
      ensures text == []
    {
      text := [];
    }

    /** Inserts `s` at the end of the stream. */
    method Write(s: string)
      modifies this
      ensures text == old(text) + s
    {
      text := text + s;
    }
  }
}
