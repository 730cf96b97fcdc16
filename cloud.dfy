/** What the bot reads from the object store and the identity service, as plain
    input data. Every remote call either answers or raises, so each answer is an
    `Attempt`. */
module Cloud {
  import opened PyRuntime

  /** One item of a bucket listing's `Contents`; its `Key` may be missing. */
  datatype ObjectEntry = ObjectEntry(key: Option<string>)

  /** The answer to listing a bucket's objects; `Contents` is absent for an
      empty bucket. */
  datatype ObjectListing = ObjectListing(contents: Option<seq<ObjectEntry>>)

  /** A managed policy attached to a group, with the outcome of fetching the
      document of its default version (the policy lookup followed by the
      version lookup). */
  datatype AttachedPolicy = AttachedPolicy(arn: string, document: Attempt<Json>)

  /** An identity group, with the outcome of listing its attached policies. */
  datatype Group = Group(name: string, attached: Attempt<seq<AttachedPolicy>>)

  /** The account as the three tools see it:
      - `buckets`: the names in the bucket listing, in listing order;
      - `listObjects(b)`: the object listing of bucket `b`;
      - `bucketPolicy(b)`: bucket `b`'s policy document, already parsed from
        its JSON text (a bucket without one raises ClientError);
      - `groups`: the identity groups, in listing order. */
  datatype Account = Account(
    buckets: Attempt<seq<string>>,
    listObjects: string -> Attempt<ObjectListing>,
    bucketPolicy: string -> Attempt<Json>,
    groups: Attempt<seq<Group>>)

  /** The bucket listing answered and names `name`. */
  predicate BucketExists(account: Account, name: string) {
    account.buckets.Done? && name in account.buckets.value
  }
}
