/** A customer waiting at the depot: a sequence number, a name and the identifier of the parcel they want. */
module CustomerModel {

  datatype Customer = Customer(seqNo: int, name: string, desiredId: string)
}
