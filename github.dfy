/**
 * The remote copy of the document (lib/github.ts), seen only through its two
 * operations: read the whole file and overwrite the whole file. Either may
 * fail (a non-success status, the network, an answer that is not JSON);
 * which one happens is not under the caller's control.
 *
 * The HTTP requests, base64 and JSON are not modelled: a successful read
 * yields a fresh object holding exactly the stored document, and a successful
 * write stores exactly the document the object holds.
 */
module GitHub {
  import opened Types

  /** One request the process sent to the remote store. */
  datatype Request = Read | Write(content: Document)

  class RemoteFile {
    /** The document currently stored remotely. */
    var file: Document
    /** Every request attempted so far, oldest first; a `Write` is an attempted write, whether or not it succeeded. */
    var log: seq<Request>

    constructor (initial: Document)
      ensures file == initial && log == []
    {
      file := initial;
      log := [];
    }

    /** `getStoreData` of lib/github.ts: `None` when it throws. */
    method Fetch() returns (r: Option<StoreData>)
      modifies this
      ensures file == old(file)
      ensures log == old(log) + [Read]
      ensures r.Some? ==> fresh(r.value) && r.value.Value() == file
    {
      log := log + [Read];
      var ok: bool := *;
      if ok {
        var data := new StoreData(file);
        r := Some(data);
      } else {
        r := None;
      }
    }

    /** `saveStoreData` of lib/github.ts: `false` when it throws, and then nothing is stored. */
    method Save(data: StoreData) returns (ok: bool)
      modifies this
      ensures log == old(log) + [Write(data.Value())]
      ensures file == if ok then data.Value() else old(file)
    {
      log := log + [Write(data.Value())];
      ok := *;
      if ok {
        file := data.Value();
      }
    }
  }
}
