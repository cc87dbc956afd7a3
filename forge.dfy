/**
 * The application messages exchanged end to end once fragments are reassembled. They
 * belong to the codec crate (packet_forge), whose source is not part of this model; only
 * the fields the engine reads or writes are kept.
 */
module Forge {
  import opened Wire

  /** Content ids are `u16` hashes. */
  type FileHash = U16

  /** Song metadata: the id the store files it under, the title, and the rest opaque. */
  datatype SongMetaData = SongMetaData(id: U16, title: string, details: seq<Byte>)

  datatype VideoMetaData = VideoMetaData(id: U16)

  datatype FileMetadata = Song(song: SongMetaData) | Video(video: VideoMetaData)

  datatype ClientType = SongClient | VideoClient

  datatype MessageType =
    | ChunkResponse(fileHash: FileHash, chunkIndex: U32, chunkData: seq<Byte>)
    | ResponseFileList(fileList: seq<FileMetadata>)
    | SubscribeClient(clientId: NodeId, clientType: ClientType, availableFiles: seq<FileMetadata>)
    | UnsubscribeClient(unsubscriber: NodeId)
    | RequestFileList(requester: NodeId)
    | OtherMessage(tag: string)   // chunk and peer-list requests and every other kind

  /** What the codec hands back for one message: a fresh session id and its fragments. */
  datatype Disassembly = Disassembly(sessionId: nat, fragments: seq<Fragment>)
}
