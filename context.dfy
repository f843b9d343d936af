/** The part of the build context (`Context`) that the linux build step reads. */
module BuildContext {
  import Volume

  /** Application name, release/debug mode and the directory mapping of one invocation. */
  datatype Context = Context(name: string, release: bool, volume: Volume.Volume) {

    function WorkDirContainer(): string { volume.workDirContainer }

    function TmpDirContainer(): string { volume.tmpDirContainer }

    function BinDirContainer(): string { volume.binDirContainer }
  }

  /** The zero value a freshly created command holds before its images are set up. */
  const ZERO_CONTEXT: Context := Context("", false, Volume.Volume("", "", ""))
}
