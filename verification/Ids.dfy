/** Names the outside gives: messages, chats, accounts, requests, questions. */
module Ids {

  datatype Id = Id(name: string)
}
