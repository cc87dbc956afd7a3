/** Option and Result, the two failure-carrying shapes the engine's Rust code returns. */
module Wrappers {

  datatype Option<+T> = None | Some(value: T)

  datatype Result<+R, +E> = Ok(value: R) | Err(error: E)

  /** Why an operation failed; one variant per error the engine reports (and logs). */
  datatype Failure =
    | NoNeighbour(node: int)          // no channel for that node id in `senders`
    | SendFailed(node: int)           // the neighbour's channel refused the packet
    | ShortcutFailed                  // neither the next hop nor the controller took the packet
    | SenderNotFound(node: int)       // RemoveSender for an absent id
    | SenderExists(node: int)         // AddSender for an id that was already present
    | UnhandledCommand                // a controller command the client does not support
    | InsertFailed                    // the key-value store refused a write
    | NotFound                        // key absent from the key-value store
    | Deserialise                     // a record could not be read back as song metadata
    | InvalidExtension                // a song directory holds a file that is neither .m3u8 nor .ts
    | BadSegmentName                  // a segment file or request name does not parse
    | NoJsonFile                      // the content directory has no .json file
    | TooManyJsonFiles                // the content directory has more than one .json file
    | UnreadableEntry                 // a directory entry could not be read
    | ChannelClosed                   // the one-shot notification channel was closed
}
