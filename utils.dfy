/**
 * `NetworkImage` of src/utils.rs.  The file repeats src/socrata/data.rs
 * field for field under other names (`image` for `data`,
 * `show_image_progress` for `is_running`), including its own copies of the
 * `Channel`, `ErrCause` and `Container` types; the model shares the types
 * and the specification functions of `SocrataData`.
 */
module Utils {

  import opened Wrappers
  import opened SocrataData

  class NetworkImage {
    var image: Option<Table>
    var fileSize: nat
    var tmpFileSize: nat
    var showImageProgress: bool
    var error: Option<string>
    var seed: nat

    function Fields(): ResponseFields
      reads this
    {
      ResponseFields(image, fileSize, tmpFileSize, showImageProgress, error, seed)
    }

    /** `#[derive(Default)]` */
    constructor ()
      ensures Fields() == DefaultFields
    {
      image, fileSize, tmpFileSize, showImageProgress, error, seed := None, 0, 0, false, None, 0;
    }

    method SetImage(i: Table)
      modifies this
      ensures image == Some(i) && error == None
      ensures fileSize == old(fileSize) && tmpFileSize == old(tmpFileSize)
      ensures showImageProgress == old(showImageProgress) && seed == old(seed)
      ensures Fields() == WithData(old(Fields()), i)
    {
      error := None;
      image := Some(i);
    }

    method SetError(e: string)
      modifies this
      ensures error == Some(e) && image == old(image)
      ensures fileSize == old(fileSize) && tmpFileSize == old(tmpFileSize)
      ensures showImageProgress == old(showImageProgress) && seed == old(seed)
      ensures Fields() == WithError(old(Fields()), e)
    {
      error := Some(e);
    }

    method Repair()
      modifies this
      ensures old(tmpFileSize) >= 1000 ==> fileSize == old(tmpFileSize) / 1000
      ensures old(tmpFileSize) < 1000 ==> fileSize == old(fileSize)
      ensures !showImageProgress && tmpFileSize == 0
      ensures image == old(image) && error == old(error) && seed == old(seed)
      ensures Fields() == Repaired(old(Fields()))
    {
      if tmpFileSize >= 1000 {
        tmpFileSize := tmpFileSize / 1000;
        fileSize := tmpFileSize;
      }
      showImageProgress := false;
      tmpFileSize := 0;
    }
  }
}
