/**
 * The server's keyword chatbot (`POST /api/chatbot/chat`): the message is lower-cased and
 * the first keyword bucket, in a fixed order, that has a keyword inside it picks the reply.
 */
module ServerChatbot {
  import opened Wrappers
  import opened Text
  import opened Records
  import Server

  /** The reply buckets; `Fallback` is the final `else`. */
  datatype Topic =
    | Services | Prices | Doctors | Hours | Location | Booking | Insurance | Emergency | Greeting
    | Fallback

  /** The buckets in the order the handler tests them. */
  const Buckets: seq<Topic> :=
    [Services, Prices, Doctors, Hours, Location, Booking, Insurance, Emergency, Greeting]

  /** The keywords of each bucket; any one of them found in the message selects it. */
  function Keywords(t: Topic): seq<string>
  {
    match t
    case Services => ["service", "treatment", "offer", "what do you"]
    case Prices => ["price", "cost", "how much"]
    case Doctors => ["doctor", "dentist", "specialist", "who are"]
    case Hours => ["hour", "time", "open", "close", "when", "weekend"]
    case Location => ["location", "address", "where", "contact", "phone", "email"]
    case Booking => ["book", "appointment", "schedule", "reserve", "visit"]
    case Insurance => ["insurance", "payment"]
    case Emergency => ["emergency", "urgent"]
    case Greeting => ["hello", "hi", "hey"]
    case Fallback => []
  }

  /** Some keyword of bucket `t` occurs in the lower-cased message. */
  predicate Mentions(lower: string, t: Topic)
  {
    exists j :: 0 <= j < |Keywords(t)| && Contains(lower, Keywords(t)[j])
  }

  /** The first of `topics` that the message mentions, or `Fallback`. */
  function FirstBucket(lower: string, topics: seq<Topic>): Topic
    requires Fallback !in topics
  {
    if topics == [] then Fallback
    else if Mentions(lower, topics[0]) then topics[0]
    else FirstBucket(lower, topics[1..])
  }

  /** `FirstBucket` is `Fallback` exactly when nothing is mentioned, else the first mentioned. */
  lemma {:induction false} FirstBucketIsFirstMentioned(lower: string, topics: seq<Topic>)
    requires Fallback !in topics
    ensures FirstBucket(lower, topics) == Fallback <==> forall i :: 0 <= i < |topics| ==> !Mentions(lower, topics[i])
    ensures FirstBucket(lower, topics) != Fallback ==>
      exists i :: 0 <= i < |topics| && topics[i] == FirstBucket(lower, topics) && Mentions(lower, topics[i])
        && forall j :: 0 <= j < i ==> !Mentions(lower, topics[j])
  {
    if topics == [] {
    } else if Mentions(lower, topics[0]) {
      assert topics[0] != Fallback;
      assert FirstBucket(lower, topics) == topics[0];
    } else {
      var tail := topics[1..];
      FirstBucketIsFirstMentioned(lower, tail);
      assert FirstBucket(lower, topics) == FirstBucket(lower, tail);
      if FirstBucket(lower, tail) != Fallback {
        var k :| 0 <= k < |tail| && tail[k] == FirstBucket(lower, tail) && Mentions(lower, tail[k])
          && forall j :: 0 <= j < k ==> !Mentions(lower, tail[j]);
        assert topics[k + 1] == tail[k];
        forall j | 0 <= j < k + 1 ensures !Mentions(lower, topics[j]) {
          if j > 0 { assert topics[j] == tail[j - 1]; }
        }
      } else {
        forall i | 0 <= i < |topics| ensures !Mentions(lower, topics[i]) {
          if i > 0 { assert topics[i] == tail[i - 1]; }
        }
      }
    }
  }

  /** The bucket a message falls into: the first mentioned one, in the handler's order. */
  function TopicOf(message: string): Topic
  {
    FirstBucket(Lower(message), Buckets)
  }

  lemma TopicOfIsFirstMentioned(message: string)
    ensures TopicOf(message) == Fallback <==> forall i :: 0 <= i < |Buckets| ==> !Mentions(Lower(message), Buckets[i])
    ensures TopicOf(message) != Fallback ==>
      exists i :: 0 <= i < |Buckets| && Buckets[i] == TopicOf(message) && Mentions(Lower(message), Buckets[i])
        && forall j :: 0 <= j < i ==> !Mentions(Lower(message), Buckets[j])
  {
    FirstBucketIsFirstMentioned(Lower(message), Buckets);
  }

  /** `${rating}` for a rating held in tenths: 49 is "4.9" and 50 is "5". */
  function RatingText(tenths: nat): (r: string)
    ensures tenths % 10 == 0 ==> r == NatText(tenths / 10)
    ensures tenths % 10 != 0 ==> r == NatText(tenths / 10) + "." + [DigitChar(tenths % 10)]
  {
    NatText(tenths / 10) + (if tenths % 10 == 0 then "" else "." + [DigitChar(tenths % 10)])
  }

  function Dollars(price: nat): string
  {
    "$" + NatText(price)
  }

  function ServiceEntry(s: Service): string
  {
    "• **" + s.name + "**: " + Dollars(s.price) + "\n  " + s.description
      + "\n  Duration: " + NatText(s.duration) + " minutes\n\n"
  }

  function PriceEntry(s: Service): string
  {
    "• " + s.name + ": " + Dollars(s.price) + "\n"
  }

  function NameLine(d: Doctor): string
  {
    "**Dr. " + d.firstName + " " + d.lastName + "**\n"
  }

  function StatsLine(d: Doctor): string
  {
    "⭐ " + RatingText(d.rating) + "/5 rating | " + NatText(d.yearsOfExperience) + " years experience\n"
  }

  /** The four lines appended per doctor. */
  function DoctorEntry(d: Doctor): string
  {
    NameLine(d) + (d.specialization + "\n") + StatsLine(d) + (d.bio + "\n\n")
  }

  function ServicesHeader(): string
  {
    "🦷 **Our Dental Services:**\n\n"
  }

  function ServicesFooter(): string
  {
    "Which service interests you?"
  }

  function PricesHeader(): string
  {
    "💰 **Service Prices:**\n\n"
  }

  function PricesFooter(): string
  {
    "\nNeed details on a specific service?"
  }

  function DoctorsHeader(): string
  {
    "👨‍⚕️ **Meet Our Expert Team:**\n\n"
  }

  function DoctorsFooter(): string
  {
    "Would you like to book with a specific doctor?"
  }

  function NoPriceFound(): string
  {
    "Please check our services for pricing details."
  }

  function ChatFailure(): string
  {
    "Sorry, I encountered an error. Please call us at (555) 123-4567."
  }

  /** The working-hours reply, in three parts: heading, weekday hours, the rest. */
  function HoursReply(): string
  {
    HoursHeading() + WeekdayHours() + HoursTail()
  }

  function HoursHeading(): string
  {
    "🕐 **Working Hours:**\n\n📅 "
  }

  function WeekdayHours(): string
  {
    "Monday - Friday: 8:00 AM - 6:00 PM"
  }

  function HoursTail(): string
  {
    "\n📅 Saturday: 9:00 AM - 3:00 PM\n📅 Sunday: Closed\n\nWe also offer emergency appointments! 🚨"
  }

  function LocationReply(): string
  {
    "📍 **SmileCare Dental Clinic**\n\n🏢 123 Dental Street\nCity Center, State 12345\n\n📞 Phone: (555) 123-4567\n✉️ Email: info@smilecare.com\n\nConveniently located in the heart of the city!"
  }

  function BookingReply(): string
  {
    "📅 **Book Your Appointment:**\n\n1️⃣ Click \"Book Now\" button on our website\n2️⃣ Select your preferred service\n3️⃣ Choose your doctor\n4️⃣ Pick a convenient date & time\n\nOr call us at (555) 123-4567 for immediate booking! 📞"
  }

  function InsuranceReply(): string
  {
    "💳 **Insurance & Payment:**\n\n✅ We accept most major insurance plans\n✅ Flexible payment plans available\n✅ Credit cards accepted\n✅ Transparent pricing - no hidden fees\n\nContact us to verify your insurance coverage!"
  }

  function EmergencyReply(): string
  {
    "🚨 **Emergency Dental Care:**\n\nWe provide same-day emergency appointments!\n\n📞 Call us immediately at (555) 123-4567\nAvailable during working hours and on-call for emergencies."
  }

  function GreetingReply(): string
  {
    "Hello! 👋 Welcome to SmileCare Dental Clinic!\n\nHow can I assist you today?\n\nYou can ask me about:\n• Our services and prices 🦷\n• Our doctors 👨‍⚕️\n• Booking appointments 📅\n• Working hours 🕐\n• Location and contact 📍"
  }

  function FallbackReply(): string
  {
    "🤖 I'm here to help!\n\nYou can ask me about:\n\n🦷 Our dental services and prices\n👨‍⚕️ Our experienced doctors\n📅 Booking an appointment\n🕐 Working hours\n📍 Location and contact info\n💳 Insurance and payment options\n🚨 Emergency dental care\n\nWhat would you like to know?"
  }

  /**
   * The fixed replies of the buckets that list nothing. The bucket logic is stated for any
   * script; `SmileCare` is the one the server sends.
   */
  datatype Script = Script(
    servicesHeader: string, servicesFooter: string, pricesHeader: string, pricesFooter: string,
    teamHeader: string, teamFooter: string, noPrice: string,
    hours: string, location: string, booking: string, insurance: string, emergency: string,
    greeting: string, fallback: string)

  function SmileCare(): Script
  {
    Script(ServicesHeader(), ServicesFooter(), PricesHeader(), PricesFooter(), DoctorsHeader(), DoctorsFooter(),
      NoPriceFound(), HoursReply(), LocationReply(), BookingReply(), InsuranceReply(), EmergencyReply(),
      GreetingReply(), FallbackReply())
  }

  /** `services.find(s => s.name.toLowerCase().includes(key))`. */
  function FindNamed(services: seq<Service>, key: string): (r: Option<Service>)
    ensures r.None? <==> forall i :: 0 <= i < |services| ==> !Contains(Lower(services[i].name), key)
    ensures r.Some? ==>
      exists i :: 0 <= i < |services| && services[i] == r.value && Contains(Lower(r.value.name), key)
        && forall j :: 0 <= j < i ==> !Contains(Lower(services[j].name), key)
  {
    if services == [] then None
    else if Contains(Lower(services[0].name), key) then Some(services[0])
    else
      var r := FindNamed(services[1..], key);
      assert forall i :: 0 < i < |services| ==> services[i] == services[1..][i - 1];
      r
  }

  /** One of the four named-treatment answers: the price line, or the fallback without a match. */
  function NamedPrice(found: Option<Service>, sentence: Service -> string, script: Script): string
  {
    if found.Some? then sentence(found.value) else script.noPrice
  }

  function WhiteningSentence(): Service -> string
  {
    (s: Service) => "Teeth Whitening costs " + Dollars(s.price) + " and takes " + NatText(s.duration) + " minutes. 😁"
  }

  function ImplantSentence(): Service -> string
  {
    (s: Service) => "Dental Implants cost " + Dollars(s.price) + ". This includes consultation and procedure. 🦷"
  }

  function RootCanalSentence(): Service -> string
  {
    (s: Service) => "Root Canal Treatment costs " + Dollars(s.price) + ". 💪"
  }

  function OrthodonticSentence(): Service -> string
  {
    (s: Service) => "Orthodontic Treatment costs " + Dollars(s.price) + ". This includes braces and aligners. 😬"
  }

  /** The services menu: header, one entry per active service in order, footer. */
  function ServicesMenu(active: seq<Service>, script: Script): string
  {
    script.servicesHeader + ConcatMap(active, ServiceEntry) + script.servicesFooter
  }

  function PriceList(active: seq<Service>, script: Script): string
  {
    script.pricesHeader + ConcatMap(active, PriceEntry) + script.pricesFooter
  }

  function TeamList(doctors: seq<Doctor>, script: Script): string
  {
    script.teamHeader + ConcatMap(doctors, DoctorEntry) + script.teamFooter
  }

  /** The message names one of the four treatments the price bucket answers for. */
  predicate NamesTreatment(lower: string)
  {
    Contains(lower, "whitening") || Contains(lower, "implant") || Contains(lower, "root canal")
    || Contains(lower, "orthodontic") || Contains(lower, "braces")
  }

  /** The answer for a named treatment, tested in the handler's order. */
  function TreatmentPrice(lower: string, active: seq<Service>, script: Script): string
  {
    if Contains(lower, "whitening") then NamedPrice(FindNamed(active, "whitening"), WhiteningSentence(), script)
    else if Contains(lower, "implant") then NamedPrice(FindNamed(active, "implant"), ImplantSentence(), script)
    else if Contains(lower, "root canal") then NamedPrice(FindNamed(active, "root"), RootCanalSentence(), script)
    else NamedPrice(FindNamed(active, "orthodontic"), OrthodonticSentence(), script)
  }

  /** The price bucket's answer: a named treatment first, else the whole price list. */
  function PriceAnswer(lower: string, active: seq<Service>, script: Script): string
  {
    if NamesTreatment(lower) then TreatmentPrice(lower, active, script) else PriceList(active, script)
  }

  /** The reply of each bucket, given the lower-cased message. */
  function TopicReply(topic: Topic, lower: string, active: seq<Service>, doctors: seq<Doctor>, script: Script)
    : string
  {
    match topic
    case Services => ServicesMenu(active, script)
    case Prices => PriceAnswer(lower, active, script)
    case Doctors => TeamList(doctors, script)
    case Hours => script.hours
    case Location => script.location
    case Booking => script.booking
    case Insurance => script.insurance
    case Emergency => script.emergency
    case Greeting => script.greeting
    case Fallback => script.fallback
  }

  /** The reply text for a message, given the active services and all doctors. */
  function Answer(message: string, active: seq<Service>, doctors: seq<Doctor>, script: Script): string
  {
    TopicReply(TopicOf(message), Lower(message), active, doctors, script)
  }

  /** A `forEach` that appends the text of every element, in order, to `prefix`. */
  method AppendEach<T>(prefix: string, s: seq<T>, f: T -> string) returns (response: string)
    ensures response == prefix + ConcatMap(s, f)
  {
    response := prefix;
    var i := 0;
    while i < |s|
      invariant 0 <= i <= |s|
      invariant response == prefix + ConcatMap(s[..i], f)
    {
      ConcatMapSnoc(s, f, i);
      response := response + f(s[i]);
      i := i + 1;
    }
    assert s[..i] == s;
  }

  /** The services menu, built by appending one entry per active service. */
  method BuildServicesMenu(active: seq<Service>, script: Script) returns (response: string)
    ensures response == ServicesMenu(active, script)
  {
    response := AppendEach(script.servicesHeader, active, ServiceEntry);
    response := response + script.servicesFooter;
  }

  /** The price list, built by appending one line per active service. */
  method BuildPriceList(active: seq<Service>, script: Script) returns (response: string)
    ensures response == PriceList(active, script)
  {
    response := AppendEach(script.pricesHeader, active, PriceEntry);
    response := response + script.pricesFooter;
  }

  /** The team list, built by appending the lines of every doctor. */
  method BuildTeamList(doctors: seq<Doctor>, script: Script) returns (response: string)
    ensures response == TeamList(doctors, script)
  {
    response := AppendEach(script.teamHeader, doctors, DoctorEntry);
    response := response + script.teamFooter;
  }

  /** The price bucket: a named treatment's sentence, or the price list built in a loop. */
  method RespondPrices(lower: string, active: seq<Service>, script: Script) returns (response: string)
    ensures response == PriceAnswer(lower, active, script)
  {
    if NamesTreatment(lower) {
      response := TreatmentPrice(lower, active, script);
    } else {
      response := BuildPriceList(active, script);
    }
  }

  /** Builds the reply of one bucket: the three lists in a loop, every other reply directly. */
  method Respond(topic: Topic, lower: string, active: seq<Service>, doctors: seq<Doctor>, script: Script)
    returns (response: string)
    ensures response == TopicReply(topic, lower, active, doctors, script)
  {
    if topic == Services {
      response := BuildServicesMenu(active, script);
    } else if topic == Prices {
      response := RespondPrices(lower, active, script);
    } else if topic == Doctors {
      response := BuildTeamList(doctors, script);
    } else {
      response := TopicReply(topic, lower, active, doctors, script);
    }
  }

  /**
   * The handler. A missing message makes `toLowerCase` throw, which is the 500 reply;
   * otherwise the reply is the answer over the active services and all doctors.
   */
  method Chat(message: Option<string>, services: seq<Service>, doctors: seq<Doctor>, script: Script)
    returns (res: Reply<string>)
    ensures message.None? ==> res == Error(500, ChatFailure())
    ensures message.Some? ==>
      res == Reply(200, Answer(message.value, Server.ActiveServices(services), doctors, script))
  {
    if message.None? {
      return Error(500, ChatFailure());
    }
    var active := Server.ActiveServices(services);
    var response := Respond(TopicOf(message.value), Lower(message.value), active, doctors, script);
    return Reply(200, response);
  }

  /** Every active service's name appears in the services menu. */
  lemma ServicesMenuNamesEvery(active: seq<Service>, i: nat, script: Script)
    requires i < |active|
    ensures Contains(ServicesMenu(active, script), active[i].name)
  {
    var s := active[i];
    ContainsSelf(s.name);
    ContainsWithin("• **", s.name, "**: " + Dollars(s.price) + "\n  " + s.description
      + "\n  Duration: " + NatText(s.duration) + " minutes\n\n", s.name);
    assert "• **" + s.name + ("**: " + Dollars(s.price) + "\n  " + s.description
      + "\n  Duration: " + NatText(s.duration) + " minutes\n\n") == ServiceEntry(s);
    ConcatMapContains(active, ServiceEntry, i);
    ContainsTransitive(ConcatMap(active, ServiceEntry), ServiceEntry(s), s.name);
    ContainsWithin(script.servicesHeader, ConcatMap(active, ServiceEntry), script.servicesFooter, s.name);
  }

  /** A message with "service" in it always gets the services menu, whatever else it says. */
  lemma ServiceKeywordWins(message: string)
    requires Contains(Lower(message), "service")
    ensures TopicOf(message) == Services
  {
    TopicOfIsFirstMentioned(message);
    assert Mentions(Lower(message), Buckets[0]) by {
      assert Keywords(Services)[0] == "service";
    }
  }

  /** No keyword of bucket `t` occurs: each has a character (at `idx[j]`) that `lower` lacks. */
  lemma NotMentioned(lower: string, t: Topic, idx: seq<nat>)
    requires |idx| == |Keywords(t)|
    requires forall j :: 0 <= j < |idx| ==> idx[j] < |Keywords(t)[j]| && Keywords(t)[j][idx[j]] !in lower
    ensures !Mentions(lower, t)
  {
    forall j | 0 <= j < |idx| ensures !Contains(lower, Keywords(t)[j]) {
      MissingCharNotContained(lower, Keywords(t)[j], idx[j]);
    }
  }

  /** The bucket at position `k` is chosen when it is mentioned and no earlier one is. */
  lemma FirstMentioned(message: string, k: nat)
    requires k < |Buckets| && Mentions(Lower(message), Buckets[k])
    requires forall j :: 0 <= j < k ==> !Mentions(Lower(message), Buckets[j])
    ensures TopicOf(message) == Buckets[k]
  {
    TopicOfIsFirstMentioned(message);
  }

  /** "What are your hours?" falls into the working-hours bucket. */
  lemma HoursQuestionTopic()
    ensures TopicOf("What are your hours?") == Hours
  {
    var lower := Lower("What are your hours?");
    assert lower == "what are your hours?";
    NoEarlierKeyword(lower);
    assert Mentions(lower, Hours) by {
      assert OccursAt(lower, "hour", 14);
      assert Keywords(Hours)[0] == "hour";
    }
    FirstMentioned("What are your hours?", 3);
  }

  lemma NoEarlierKeyword(lower: string)
    requires lower == "what are your hours?"
    ensures !Mentions(lower, Services) && !Mentions(lower, Prices) && !Mentions(lower, Doctors)
  {
    NotMentioned(lower, Services, [3, 5, 1, 5]);
    NotMentioned(lower, Prices, [0, 0, 4]);
    NoDoctorKeyword(lower);
  }

  lemma NoDoctorKeyword(lower: string)
    requires lower == "what are your hours?"
    ensures !Mentions(lower, Doctors)
  {
    assert !Contains(lower, "who are") by {
      forall i | 0 <= i <= |lower| - 7 ensures !OccursAt(lower, "who are", i) {
        if i == 0 {
          assert lower[i..i + 7][2] == lower[2];
        } else {
          assert lower[i..i + 7][0] == lower[i];
        }
      }
    }
    MissingCharNotContained(lower, "doctor", 0);
    MissingCharNotContained(lower, "dentist", 0);
    MissingCharNotContained(lower, "specialist", 1);
  }

  /** ... so it gets the working-hours reply, which gives the weekday opening hours. */
  lemma HoursQuestion(active: seq<Service>, doctors: seq<Doctor>, script: Script)
    ensures Answer("What are your hours?", active, doctors, script) == script.hours
  {
    HoursQuestionTopic();
  }

  lemma WeekdayHoursListed()
    ensures Contains(HoursReply(), "Monday - Friday: 8:00 AM - 6:00 PM")
  {
    ContainsSelf(WeekdayHours());
    ContainsWithin(HoursHeading(), WeekdayHours(), HoursTail(), WeekdayHours());
  }

  lemma ThisMentionsNoTopic(lower: string)
    requires lower == "this"
    ensures !Mentions(lower, Services) && !Mentions(lower, Prices) && !Mentions(lower, Doctors)
    ensures !Mentions(lower, Hours)
  {
    NotMentioned(lower, Services, [3, 1, 0, 4]);
    NotMentioned(lower, Prices, [0, 0, 1]);
    NotMentioned(lower, Doctors, [0, 0, 1, 0]);
    NotMentioned(lower, Hours, [1, 2, 0, 0, 0, 0]);
  }

  lemma ThisMentionsNoService(lower: string)
    requires lower == "this"
    ensures !Mentions(lower, Location) && !Mentions(lower, Booking)
    ensures !Mentions(lower, Insurance) && !Mentions(lower, Emergency)
  {
    NotMentioned(lower, Location, [0, 0, 0, 0, 0, 0]);
    NotMentioned(lower, Booking, [0, 0, 1, 0, 0]);
    NotMentioned(lower, Insurance, [1, 0]);
    NotMentioned(lower, Emergency, [0, 0]);
  }

  /** "hi" is matched inside words: "this" is taken for a greeting. */
  lemma HiInsideAWordGreets()
    ensures TopicOf("this") == Greeting
  {
    var lower := Lower("this");
    assert lower == "this";
    ThisMentionsNoTopic(lower);
    ThisMentionsNoService(lower);
    assert Mentions(lower, Greeting) by {
      assert OccursAt(lower, "hi", 1);
      assert Keywords(Greeting)[1] == "hi";
    }
    FirstMentioned("this", 8);
  }
}
