/** TNFS on the wire: the constants that client and server share (include/tnfs_proto.h). */
module TnfsProto {
  import opened Bytes

  const HDR_LEN := 4           // session, sequence number and command
  const STATUS_OFF := HDR_LEN
  const IO_CHUNK := 1024       // most data bytes of one READ or WRITE
  const MSG_CAP := HDR_LEN + 4 + IO_CHUNK

  const MOUNT: byte := 0x00
  const UMOUNT: byte := 0x01
  const OPENDIR: byte := 0x10
  const READDIR: byte := 0x11
  const CLOSEDIR: byte := 0x12
  const OPENDIRX: byte := 0x17
  const READDIRX: byte := 0x18
  const READ: byte := 0x21
  const WRITE: byte := 0x22
  const CLOSE: byte := 0x23
  const LSEEK: byte := 0x25
  const OPEN: byte := 0x29

  const ST_OK: byte := 0x00
  const ST_EIO: byte := 0x03
  const ST_EAGAIN: byte := 0x07
  const ST_EINVAL: byte := 0x0E
  const ST_EOF: byte := 0x21

  const FIXED := 13            // bytes of a directory entry before its name
  const DIRSTATUS_EOF: byte := 0x01
}
