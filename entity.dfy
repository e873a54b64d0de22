/** The user document stored in the `user` index: every field of the Java bean may be null. */
module Entity {
  import opened Wrappers
  import opened JavaLang

  /** A `LocalDateTime`, as an abstract instant. */
  type Timestamp = int

  /** A `Double` score, kept opaque: the model never computes with it (the field is its 64-bit pattern). */
  datatype Score = Score(bits: bv64)

  datatype User = User(
    id: Option<string>,
    username: Option<string>,
    email: Option<string>,
    age: Option<Int32>,
    gender: Option<string>,
    city: Option<string>,
    bio: Option<string>,
    tags: Option<seq<string>>,
    createTime: Option<Timestamp>,
    updateTime: Option<Timestamp>,
    isActive: Option<bool>,
    score: Option<Score>)
}
