/** What the stores' `import…` operations report. */
module Importing {
  /** `{ success: true, imported: n }` or `{ success: false, error }`. */
  datatype ImportResult = Imported(count: nat) | ImportFailed
}
