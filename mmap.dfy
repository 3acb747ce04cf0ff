/**
 * Mapping mediation for passthrough device descriptors. The accelerator
 * (TPU) descriptor and the generic PCI device descriptor implement the
 * memory-mappable interface identically, so both are one model here,
 * parameterised by the device kind.
 *
 * A guest mapping of a device descriptor is translated onto the
 * descriptor's memmap file, whose only job is to report the host fd: the
 * sandbox never maps device memory internally.
 */
module DeviceMmap {
  import opened Host

  datatype DeviceKind = Tpu | PciDevice

  /** A passthrough device descriptor, reduced to what the mapping code reads. */
  datatype DeviceFd = DeviceFd(kind: DeviceKind, hostFD: Int32)

  /**
   * The memmap file embedded in a descriptor. `owner` is a lookup of the
   * owning descriptor, not an ownership: the descriptor owns the file.
   */
  datatype MemmapFile = MemmapFile(owner: DeviceFd)

  /** A range of offsets into a mappable object or a file, [start, end). */
  datatype Range = Range(start: Word, end: Word)
  {
    predicate Contains(x: int) { start <= x < end }
    predicate Within(r: Range) { r.start <= start && end <= r.end }
  }

  datatype AccessType = AccessType(read: bool, write: bool, execute: bool)

  /**
   * A translation: offsets `source` of the mappable object are backed by
   * `file` starting at `offset`, with permissions `perms`.
   */
  datatype Translation = Translation(source: Range, file: MemmapFile, offset: Word, perms: AccessType)

  /** A block of internally mapped memory; never produced here. */
  datatype Block = Block(start: Word, length: Word)

  /** The descriptor's embedded memmap file. */
  function MemmapFileOf(d: DeviceFd): (f: MemmapFile)
    ensures f.owner == d
  {
    MemmapFile(d)
  }

  /** The file offset that backs offset `x` of the translation's source. */
  function FileOffset(t: Translation, x: int): int
  {
    t.offset + (x - t.source.start)
  }

  /**
   * Translate: one translation covering the whole `optional` range, onto
   * the descriptor's own memmap file at the same offset, with exactly the
   * requested access. It never fails, whatever `required` is.
   */
  function Translate(d: DeviceFd, required: Range, optional: Range, at: AccessType)
    : (r: Translated)
    ensures r.err.None? && |r.translations| == 1
    ensures r.translations[0].source == optional
    ensures r.translations[0].file == MemmapFileOf(d)
    ensures r.translations[0].offset == optional.start
    ensures r.translations[0].perms == at
  {
    Translated([Translation(optional, MemmapFileOf(d), optional.start, at)], None)
  }

  /** What Translate returns: the translations and an error. */
  datatype Translated = Translated(translations: seq<Translation>, err: Option<Errno>)

  /**
   * A fault anywhere in the optional range is served from the host device
   * at the same offset, through the owning descriptor's host fd, and the
   * translation covers every required range that lies within the optional
   * one.
   */
  lemma TranslateIsDirect(d: DeviceFd, required: Range, optional: Range, at: AccessType, x: int)
    requires optional.Contains(x)
    ensures var t := Translate(d, required, optional, at).translations[0];
      t.source.Contains(x) && FileOffset(t, x) == x && FD(t.file) == d.hostFD
    ensures required.Within(optional) ==> required.Within(Translate(d, required, optional, at).translations[0].source)
  {
  }

  /** AddMapping: accepts every mapping and records nothing. */
  function AddMapping(d: DeviceFd, ar: Range, offset: Word, writable: bool): (r: (DeviceFd, Option<Errno>))
    ensures r.0 == d && r.1.None?
  {
    (d, None)
  }

  /** RemoveMapping: has nothing to undo. */
  function RemoveMapping(d: DeviceFd, ar: Range, offset: Word, writable: bool): (r: DeviceFd)
    ensures r == d
  {
    d
  }

  /** CopyMapping: accepts every copy and records nothing. */
  function CopyMapping(d: DeviceFd, srcAR: Range, dstAR: Range, offset: Word, writable: bool)
    : (r: (DeviceFd, Option<Errno>))
    ensures r.0 == d && r.1.None?
  {
    (d, None)
  }

  /** InvalidateUnsavable: the descriptor holds nothing that a checkpoint could invalidate. */
  function InvalidateUnsavable(d: DeviceFd): (r: (DeviceFd, Option<Errno>))
    ensures r.0 == d && r.1.None?
  {
    (d, None)
  }

  /**
   * IncRef: takes a reference on the file range for the memory cgroup
   * `memCgID`; the host owns the pages, so nothing is recorded.
   */
  function IncRef(f: MemmapFile, fr: Range, memCgID: Uint32): (r: MemmapFile)
    ensures r == f
  {
    f
  }

  /** DecRef: the host owns the pages, so no reference is counted. */
  function DecRef(f: MemmapFile, fr: Range): (r: MemmapFile)
    ensures r == f
  {
    f
  }

  /** What MapInternal returns: a block sequence and an error. */
  datatype Mapped = Mapped(blocks: seq<Block>, err: Option<Errno>)

  /**
   * MapInternal: the sandbox may never map device memory for its own use;
   * every request, for every range and access, is refused with EINVAL and
   * no memory.
   */
  function MapInternal(f: MemmapFile, fr: Range, at: AccessType): (r: Mapped)
    ensures r.blocks == [] && r.err == Some(EINVAL)
  {
    Mapped([], Some(EINVAL))
  }

  /** FD: the owning descriptor's host fd, the file the host really maps. */
  function FD(f: MemmapFile): (r: int)
    ensures r == f.owner.hostFD
  {
    f.owner.hostFD
  }
}
