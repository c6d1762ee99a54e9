/**
 The storage root: names bound to files, and files that outlive their names while a stream is open on them.
 */
module Storage {
  import opened Text
  import opened Requests

  /** The size of a file fits the 63-bit stream offset that `tellg` returns. */
  const MAX_FILE_SIZE: nat := 0x7FFF_FFFF_FFFF_FFFF

  type FileId = nat

  datatype Disk = Disk(names: map<string, FileId>, data: map<FileId, string>, next: FileId) {

    /** Every name has a file of its own (there are no hard links), and ids from `next` on are unused. */
    ghost predicate Valid() {
      && (forall n | n in names :: names[n] in data)
      && (forall m, n | m in names && n in names && names[m] == names[n] :: m == n)
      && (forall i | i in data :: i < next && |data[i]| <= MAX_FILE_SIZE)
    }

    /** Opening for output with truncation: an existing file is emptied, a missing one is created. */
    function Truncate(name: string): (Disk, FileId) {
      if name in names then
        (Disk(names, data[names[name] := ""], next), names[name])
      else
        (Disk(names[name := next], data[next := ""], next + 1), next)
    }

    /** The file of an open stream, which need not have a name any more. */
    function Contents(file: FileId): string {
      if file in data then data[file] else ""
    }

    function Append(file: FileId, bytes: string): Disk {
      Disk(names, data[file := Contents(file) + bytes], next)
    }

    /** `from` takes over the name `to`; a file that loses its name stays readable to whoever has it open. */
    function Rename(from: string, to: string): Disk
      requires from in names
    {
      Disk((names - {from})[to := names[from]], data, next)
    }

    function Remove(name: string): Disk {
      Disk(names - {name}, data, next)
    }

    /** What a read of `count` bytes at `position` delivers: less than that only at the end of the file. */
    function Read(file: FileId, position: nat, count: nat): (bytes: string)
      ensures |bytes| <= count
    {
      var all := Contents(file);
      if position >= |all| then "" else all[position..position + Min(count, |all| - position)]
    }

    /**
     The store that requests see: the file contents under every name,
     except the names that belong to unfinished uploads.
     */
    ghost function Visible(): map<string, string>
      requires Valid()
    {
      map n | n in names && !IsTempName(n) :: data[names[n]]
    }

    /** No unfinished upload can write to this file: it exists and no temporary name leads to it. */
    ghost predicate Frozen(file: FileId) {
      && file in data
      && forall n | n in names && IsTempName(n) :: names[n] != file
    }
  }

  /** Everything that was frozen stays frozen, with the same contents. */
  ghost predicate KeepsFrozen(d: Disk, d': Disk) {
    forall i | d.Frozen(i) :: d'.Frozen(i) && d'.data[i] == d.data[i]
  }

  /**
   All temporary names other than `own` still lead to the same files, with the same contents, and no new ones appear.
   */
  ghost predicate KeepsTemps(d: Disk, d': Disk, own: string) {
    forall n | IsTempName(n) && n != own ::
      (n in d'.names <==> n in d.names)
      && (n in d.names ==>
        d'.names[n] == d.names[n] && d.names[n] in d.data && d'.Contents(d.names[n]) == d.data[d.names[n]])
  }

  lemma VisibleIsFrozen(d: Disk, name: string)
    requires d.Valid() && name in d.names && !IsTempName(name)
    ensures d.Frozen(d.names[name])
  {
  }

  /** Two disks on which the non-temporary names lead to the same files, unchanged. */
  lemma SameVisible(d: Disk, d': Disk)
    requires d.Valid() && d'.Valid()
    requires forall n | !IsTempName(n) :: n in d.names <==> n in d'.names
    requires forall n | n in d.names && !IsTempName(n) ::
               d'.names[n] == d.names[n] && d'.data[d.names[n]] == d.data[d.names[n]]
    ensures d'.Visible() == d.Visible()
  {
  }

  /** Only the file `file`, which a temporary name leads to, and unused ids may differ. */
  lemma OneFileChanged(d: Disk, d': Disk, file: FileId)
    requires d.Valid() && d'.Valid()
    requires !d.Frozen(file)
    requires forall i | i in d.data && i != file :: i in d'.data && d'.data[i] == d.data[i]
    requires forall n | n in d'.names && IsTempName(n) ::
               d'.names[n] == file || (n in d.names && d.names[n] == d'.names[n])
    ensures KeepsFrozen(d, d')
  {
  }

  /** Truncation changes one name and one file, which nobody else leads to. */
  lemma TruncateParts(d: Disk, temp: string)
    requires d.Valid() && IsTempName(temp)
    ensures var (d', file) := d.Truncate(temp);
            && d'.Valid() && d'.data == d.data[file := ""] && d'.names == d.names[temp := file] && !d.Frozen(file)
            && forall n | n in d.names && n != temp :: d.names[n] != file
  {
  }

  lemma TruncateTemp(d: Disk, temp: string)
    requires d.Valid() && IsTempName(temp)
    ensures var (d', file) := d.Truncate(temp);
            && d'.Valid() && KeepsFrozen(d, d') && KeepsTemps(d, d', temp) && d'.Visible() == d.Visible()
            && temp in d'.names && d'.names[temp] == file && d'.data[file] == ""
  {
    TruncateParts(d, temp);
    var (d', file) := d.Truncate(temp);
    hide Disk.Truncate;
    OneFileChanged(d, d', file);
    SameVisible(d, d');
    OtherTempsStay(d, d', temp, file);
    hide KeepsFrozen, KeepsTemps, Disk.Visible;
  }

  lemma OtherTempsStay(d: Disk, d': Disk, temp: string, file: FileId)
    requires d.Valid() && d'.data == d.data[file := ""] && d'.names == d.names[temp := file]
    requires forall n | n in d.names && n != temp :: d.names[n] != file
    ensures KeepsTemps(d, d', temp)
  {
    hide IsTempName;
  }

  lemma AppendTemp(d: Disk, temp: string, bytes: string)
    requires d.Valid() && IsTempName(temp) && temp in d.names
    requires |d.data[d.names[temp]]| + |bytes| <= MAX_FILE_SIZE
    ensures var d' := d.Append(d.names[temp], bytes);
            && d'.Valid() && KeepsFrozen(d, d') && KeepsTemps(d, d', temp) && d'.Visible() == d.Visible()
            && d'.names == d.names && d'.data[d.names[temp]] == d.data[d.names[temp]] + bytes
  {
  }

  lemma RemoveTemp(d: Disk, temp: string)
    requires d.Valid() && IsTempName(temp)
    ensures var d' := d.Remove(temp);
            && d'.Valid() && KeepsFrozen(d, d') && KeepsTemps(d, d', temp) && d'.Visible() == d.Visible()
            && temp !in d'.names
  {
  }

  lemma PublishKeeps(d: Disk, temp: string, name: string)
    requires d.Valid() && IsTempName(temp) && temp in d.names && !IsTempName(name)
    ensures var d' := d.Rename(temp, name);
            && d'.Valid() && KeepsFrozen(d, d') && KeepsTemps(d, d', temp) && temp !in d'.names
  {
    var d' := d.Rename(temp, name);
    assert forall n | n in d'.names && IsTempName(n) :: n in d.names && d'.names[n] == d.names[n];
  }

  /** Publishing an upload is one atomic change of the visible store, at one name. */
  lemma PublishTemp(d: Disk, temp: string, name: string)
    requires d.Valid() && IsTempName(temp) && temp in d.names && !IsTempName(name)
    ensures var d' := d.Rename(temp, name);
            && d'.Valid() && KeepsFrozen(d, d') && KeepsTemps(d, d', temp) && temp !in d'.names
            && d'.Visible() == d.Visible()[name := d.data[d.names[temp]]]
  {
    PublishKeeps(d, temp, name);
    PublishShows(d, temp, name);
    hide Disk.Rename, Disk.Visible, KeepsFrozen, KeepsTemps, IsTempName, Disk.Valid;
  }

  lemma PublishShows(d: Disk, temp: string, name: string)
    requires d.Valid() && IsTempName(temp) && temp in d.names && !IsTempName(name) && d.Rename(temp, name).Valid()
    ensures temp in d.names && d.names[temp] in d.data
    ensures d.Rename(temp, name).Visible() == d.Visible()[name := d.data[d.names[temp]]]
  {
    hide IsTempName;
  }
}
