/** The object store the workflow steps publish to, reduced to the calls they make:
    `upload_file(local_path, bucket, key)` and a public-read ACL put on `(bucket, key)`. */
module Storage {

  datatype Upload = Upload(source: string, bucket: string, key: string)
  datatype ObjectRef = ObjectRef(bucket: string, key: string)

  class ObjectStore {
    /** Every upload, in call order. */
    var uploads: seq<Upload>
    /** Every object made publicly readable, in call order. */
    var publicObjects: seq<ObjectRef>

    constructor ()
      ensures uploads == [] && publicObjects == []
    {
      uploads, publicObjects := [], [];
    }

    method UploadFile(source: string, bucket: string, key: string)
      modifies this
      ensures uploads == old(uploads) + [Upload(source, bucket, key)]
      ensures publicObjects == old(publicObjects)
    {
      uploads := uploads + [Upload(source, bucket, key)];
    }

    /** `s3.ObjectAcl(bucket, key).put(ACL='public-read')`. */
    method MakePublic(bucket: string, key: string)
      modifies this
      ensures publicObjects == old(publicObjects) + [ObjectRef(bucket, key)]
      ensures uploads == old(uploads)
    {
      publicObjects := publicObjects + [ObjectRef(bucket, key)];
    }
  }
}
