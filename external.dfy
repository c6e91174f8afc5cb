/** The collaborators the routing core talks to, reduced to the values they
    return: the S3 object store, the DynamoDB metadata store, and Go's
    path package. Network calls become function parameters of these types. */
module External {
  import opened Wrappers

  /** An error returned by an AWS client: an awserr.Error carrying a code,
      or an error of any other kind. */
  datatype StoreError = AwsError(code: string) | OtherError

  /** The S3 error code for a missing object (s3.ErrCodeNoSuchKey). */
  const NoSuchKey := "NoSuchKey"

  /** The metadata S3 returns with an object; numbers and dates are
      already formatted as the response headers carry them. */
  datatype ObjectInfo = ObjectInfo(
    contentType: string,
    contentLength: string,
    etag: string,
    lastModified: string)

  /** The outcome of one GetObject call. */
  datatype GetObjectOutcome = Found(info: ObjectInfo, body: string) | GetObjectFailed(err: StoreError)

  /** The key of one DynamoDB GetItem call. */
  datatype GetItemInput = GetItemInput(tableName: string, partitionKey: string, sortKey: string)

  /** A DynamoDB attribute value; only its string member S is read. */
  datatype AttributeValue = AttributeValue(s: Option<string>)

  /** The outcome of one GetItem call. A missing item comes back as an
      empty item, not as an error. */
  datatype GetItemOutcome = Item(attributes: map<string, AttributeValue>) | GetItemFailed(err: StoreError)

  /** path.Join and path.Clean, left uninterpreted. */
  datatype PathOps = PathOps(join: seq<string> -> string, clean: string -> string)
}
